/** The engagement bookkeeping of `RealtimeManager`: per-id like, comment and
    reply-like counts and the set of posts the local user has liked, updated
    by the seven push-event handlers and seeded from post data or from the
    batch-count endpoints.

    The tables are pure values here (`Store`), the handlers are methods of the
    `RealtimeManager` class, and each handler is proved to leave the tables
    equal to `Step` (or `Receive`, for a raw payload) applied to the old ones.
    The lemmas below are about `Step`. */
module Realtime {
  import opened Text
  import opened Posts

  // ---------------------------------------------------------------------------
  // Payloads and their decoding

  /** A push payload as the transport hands it over: the JSON value that the
      handlers probe with `as? [String: Any]`, `as? String` and `as? Int`. */
  datatype Json =
    | JString(str: string)
    | JInt(num: int)
    | JObject(fields: map<string, Json>)
    | JOther

  /** `d[key] as? String` */
  function StringAt(d: map<string, Json>, key: string): Option<string> {
    if key in d && d[key].JString? then Some(d[key].str) else None
  }

  /** `d[key] as? Int` */
  function IntAt(d: map<string, Json>, key: string): Option<int> {
    if key in d && d[key].JInt? then Some(d[key].num) else None
  }

  /** `d[key] as? [String: Any]` */
  function ObjectAt(d: map<string, Json>, key: string): Option<map<string, Json>> {
    if key in d && d[key].JObject? then Some(d[key].fields) else None
  }

  /** `(d[outer] as? [String: Any])?[key] as? String` */
  function NestedStringAt(d: map<string, Json>, outer: string, key: string): Option<string> {
    match ObjectAt(d, outer)
    case None => None
    case Some(o) => StringAt(o, key)
  }

  /** The seven events the handlers are bound to, by channel:
      "LIKES": POST_LIKE, POST_UNLIKE, COMMENT_LIKE; "reply": NEW-COMMENT1,
      COMMENT-DELETED; "REPLIES": COMMENT-UNLIKE; "posts": POST-DELETED. */
  datatype EventKind =
    | PostLike | PostUnlike | NewComment | CommentDeleted | CommentLike | CommentUnlike | PostDeleted

  /** A payload that passed its handler's guards. For comment likes the
      payload's `post_id` field carries the comment id. */
  datatype Event =
    | PostLiked(postId: string, actor: string, count: int, owner: Option<string>, username: Option<string>)
    | PostUnliked(postId: string, actor: string)
    | CommentAdded(postId: string, actor: string, owner: Option<string>, userName: Option<string>, content: Option<string>)
    | CommentRemoved(postId: string)
    | CommentLiked(commentId: string, actor: string, payloadCount: Option<int>, owner: Option<string>, username: Option<string>)
    | CommentUnliked(commentId: string, actor: string)
    | PostRemoved(postId: string)

  function KindOf(e: Event): EventKind {
    match e
    case PostLiked(_, _, _, _, _) => PostLike
    case PostUnliked(_, _) => PostUnlike
    case CommentAdded(_, _, _, _, _) => NewComment
    case CommentRemoved(_) => CommentDeleted
    case CommentLiked(_, _, _, _, _) => CommentLike
    case CommentUnliked(_, _) => CommentUnlike
    case PostRemoved(_) => PostDeleted
  }

  /** The guards at the top of each handler: `None` when the payload is not a
      dictionary or lacks a required field. POST_UNLIKE takes the ids from the
      nested `like` object, falling back to `PostID`/`UserID`; COMMENT-UNLIKE
      takes `ID`, falling back to `replyId`, and `User`, falling back to
      `user_id`. */
  function Decode(kind: EventKind, data: Json): (r: Option<Event>)
    ensures r.Some? ==> KindOf(r.value) == kind
    ensures !data.JObject? ==> r.None?
  {
    if !data.JObject? then None
    else
      var d := data.fields;
      match kind
      case PostLike =>
        var like := ObjectAt(d, "like");
        var count := IntAt(d, "count");
        if like.None? || count.None? then None
        else
          var postId := StringAt(like.value, "post_id");
          var actor := StringAt(like.value, "user_id");
          if postId.None? || actor.None? then None
          else Some(PostLiked(postId.value, actor.value, count.value,
                              StringAt(like.value, "owner"), StringAt(like.value, "username")))
      case PostUnlike =>
        var postId := OrElse(NestedStringAt(d, "like", "post_id"), StringAt(d, "PostID"));
        var actor := OrElse(NestedStringAt(d, "like", "user_id"), StringAt(d, "UserID"));
        if postId.None? || actor.None? then None
        else Some(PostUnliked(postId.value, actor.value))
      case NewComment =>
        var postId := StringAt(d, "post_id");
        var actor := StringAt(d, "user_id");
        if postId.None? || actor.None? then None
        else Some(CommentAdded(postId.value, actor.value,
                               StringAt(d, "owner"), StringAt(d, "user_name"), StringAt(d, "content")))
      case CommentDeleted =>
        var postId := StringAt(d, "post_id");
        if postId.None? then None else Some(CommentRemoved(postId.value))
      case CommentLike =>
        var commentId := StringAt(d, "post_id");
        var actor := StringAt(d, "user_id");
        if commentId.None? || actor.None? then None
        else Some(CommentLiked(commentId.value, actor.value, IntAt(d, "count"),
                               StringAt(d, "owner"), StringAt(d, "username")))
      case CommentUnlike =>
        var commentId := OrElse(StringAt(d, "ID"), StringAt(d, "replyId"));
        var actor := OrElse(StringAt(d, "User"), StringAt(d, "user_id"));
        if commentId.None? || actor.None? then None
        else Some(CommentUnliked(commentId.value, actor.value))
      case PostDeleted =>
        var postId := StringAt(d, "id");
        if postId.None? then None else Some(PostRemoved(postId.value))
  }

  /** An optional string field: present as a string, or absent. */
  function OptionalField(key: string, v: Option<string>): map<string, Json> {
    if v.Some? then map[key := JString(v.value)] else map[]
  }

  /** The payload the server sends for an event, using the primary spelling
      of every key. */
  function Encode(e: Event): Json {
    match e
    case PostLiked(p, a, n, owner, username) =>
      JObject(map["count" := JInt(n),
                  "like" := JObject(map["post_id" := JString(p), "user_id" := JString(a)]
                                    + OptionalField("owner", owner) + OptionalField("username", username))])
    case PostUnliked(p, a) =>
      JObject(map["like" := JObject(map["post_id" := JString(p), "user_id" := JString(a)])])
    case CommentAdded(p, a, owner, name, content) =>
      JObject(map["post_id" := JString(p), "user_id" := JString(a)]
              + OptionalField("owner", owner) + OptionalField("user_name", name) + OptionalField("content", content))
    case CommentRemoved(p) => JObject(map["post_id" := JString(p)])
    case CommentLiked(c, a, n, owner, username) =>
      JObject(map["post_id" := JString(c), "user_id" := JString(a)]
              + (if n.Some? then map["count" := JInt(n.value)] else map[])
              + OptionalField("owner", owner) + OptionalField("username", username))
    case CommentUnliked(c, a) => JObject(map["ID" := JString(c), "User" := JString(a)])
    case PostRemoved(p) => JObject(map["id" := JString(p)])
  }

  /** Looking up a key after adding an optional field. */
  lemma OptionalFieldLookup(m: map<string, Json>, k: string, v: Option<string>, j: string)
    requires k !in m
    ensures StringAt(m + OptionalField(k, v), k) == v
    ensures j != k ==> StringAt(m + OptionalField(k, v), j) == StringAt(m, j)
    ensures j != k ==> IntAt(m + OptionalField(k, v), j) == IntAt(m, j)
    ensures j != k ==> (j in m + OptionalField(k, v) <==> j in m)
  {
  }

  lemma DecodeEncodePostLiked(p: string, a: string, n: int, owner: Option<string>, username: Option<string>)
    ensures Decode(PostLike, Encode(PostLiked(p, a, n, owner, username))) == Some(PostLiked(p, a, n, owner, username))
  {
    var m0 := map["post_id" := JString(p), "user_id" := JString(a)];
    var m1 := m0 + OptionalField("owner", owner);
    var like := m1 + OptionalField("username", username);
    OptionalFieldLookup(m0, "owner", owner, "post_id");
    OptionalFieldLookup(m0, "owner", owner, "user_id");
    OptionalFieldLookup(m1, "username", username, "post_id");
    OptionalFieldLookup(m1, "username", username, "user_id");
    OptionalFieldLookup(m1, "username", username, "owner");
    assert StringAt(like, "post_id") == Some(p) && StringAt(like, "user_id") == Some(a);
    assert StringAt(like, "owner") == owner && StringAt(like, "username") == username;
  }

  lemma DecodeEncodeCommentAdded(p: string, a: string, owner: Option<string>, name: Option<string>, content: Option<string>)
    ensures Decode(NewComment, Encode(CommentAdded(p, a, owner, name, content))) == Some(CommentAdded(p, a, owner, name, content))
  {
    var m0 := map["post_id" := JString(p), "user_id" := JString(a)];
    var m1 := m0 + OptionalField("owner", owner);
    var m2 := m1 + OptionalField("user_name", name);
    var d := m2 + OptionalField("content", content);
    OptionalFieldLookup(m0, "owner", owner, "post_id");
    OptionalFieldLookup(m0, "owner", owner, "user_id");
    OptionalFieldLookup(m1, "user_name", name, "post_id");
    OptionalFieldLookup(m1, "user_name", name, "user_id");
    OptionalFieldLookup(m1, "user_name", name, "owner");
    OptionalFieldLookup(m2, "content", content, "post_id");
    OptionalFieldLookup(m2, "content", content, "user_id");
    OptionalFieldLookup(m2, "content", content, "owner");
    OptionalFieldLookup(m2, "content", content, "user_name");
    assert StringAt(d, "post_id") == Some(p) && StringAt(d, "user_id") == Some(a);
    assert StringAt(d, "owner") == owner && StringAt(d, "user_name") == name && StringAt(d, "content") == content;
  }

  lemma DecodeEncodeCommentLiked(c: string, a: string, n: Option<int>, owner: Option<string>, username: Option<string>)
    ensures Decode(CommentLike, Encode(CommentLiked(c, a, n, owner, username))) == Some(CommentLiked(c, a, n, owner, username))
  {
    var m0 := map["post_id" := JString(c), "user_id" := JString(a)]
              + (if n.Some? then map["count" := JInt(n.value)] else map[]);
    var m1 := m0 + OptionalField("owner", owner);
    var d := m1 + OptionalField("username", username);
    assert StringAt(m0, "post_id") == Some(c) && StringAt(m0, "user_id") == Some(a) && IntAt(m0, "count") == n;
    OptionalFieldLookup(m0, "owner", owner, "post_id");
    OptionalFieldLookup(m0, "owner", owner, "user_id");
    OptionalFieldLookup(m0, "owner", owner, "count");
    OptionalFieldLookup(m1, "username", username, "post_id");
    OptionalFieldLookup(m1, "username", username, "user_id");
    OptionalFieldLookup(m1, "username", username, "count");
    OptionalFieldLookup(m1, "username", username, "owner");
    assert StringAt(d, "post_id") == Some(c) && StringAt(d, "user_id") == Some(a);
    assert IntAt(d, "count") == n;
    assert StringAt(d, "owner") == owner && StringAt(d, "username") == username;
  }

  /** Decoding gives back every event from its payload. */
  lemma DecodeEncode(e: Event)
    ensures Decode(KindOf(e), Encode(e)) == Some(e)
  {
    match e
    case PostLiked(p, a, n, owner, username) => DecodeEncodePostLiked(p, a, n, owner, username);
    case PostUnliked(p, a) =>
    case CommentAdded(p, a, owner, name, content) => DecodeEncodeCommentAdded(p, a, owner, name, content);
    case CommentRemoved(p) =>
    case CommentLiked(c, a, n, owner, username) => DecodeEncodeCommentLiked(c, a, n, owner, username);
    case CommentUnliked(c, a) =>
    case PostRemoved(p) =>
  }

  /** The second spellings are accepted: a POST_UNLIKE payload with no `like`
      object is read from `PostID`/`UserID`, and a COMMENT-UNLIKE payload
      with no `ID`/`User` from `replyId`/`user_id`. Where both spellings are
      present, the first wins. */
  lemma UnlikeFallbackSpellings(p: string, a: string, q: string, b: string)
    ensures Decode(PostUnlike, JObject(map["PostID" := JString(p), "UserID" := JString(a)]))
            == Some(PostUnliked(p, a))
    ensures Decode(CommentUnlike, JObject(map["replyId" := JString(p), "user_id" := JString(a)]))
            == Some(CommentUnliked(p, a))
    ensures Decode(PostUnlike, JObject(map["like" := JObject(map["post_id" := JString(p), "user_id" := JString(a)]),
                                           "PostID" := JString(q), "UserID" := JString(b)]))
            == Some(PostUnliked(p, a))
    ensures Decode(CommentUnlike, JObject(map["ID" := JString(p), "User" := JString(a),
                                              "replyId" := JString(q), "user_id" := JString(b)]))
            == Some(CommentUnliked(p, a))
  {
    var d1 := map["PostID" := JString(p), "UserID" := JString(a)];
    assert NestedStringAt(d1, "like", "post_id") == None;
    var d2 := map["replyId" := JString(p), "user_id" := JString(a)];
    assert StringAt(d2, "ID") == None && StringAt(d2, "User") == None;
  }

  /** A POST_LIKE payload without an integer `count` is dropped, whatever
      else it carries. */
  lemma PostLikeNeedsCount(d: map<string, Json>)
    requires "count" !in d || !d["count"].JInt?
    ensures Decode(PostLike, JObject(d)) == None
  {
  }

  /** `d[key]` is present and is a string. */
  predicate HasString(d: map<string, Json>, key: string) {
    key in d && d[key].JString?
  }

  /** `d[outer]` is an object whose `key` is a string. */
  predicate HasNestedString(d: map<string, Json>, outer: string, key: string) {
    outer in d && d[outer].JObject? && HasString(d[outer].fields, key)
  }

  /** The fields each handler's guard demands of a payload dictionary, with
      the second spellings the unlike handlers fall back to. */
  predicate HasRequiredFields(kind: EventKind, d: map<string, Json>) {
    match kind
    case PostLike =>
      "count" in d && d["count"].JInt? && HasNestedString(d, "like", "post_id") && HasNestedString(d, "like", "user_id")
    case PostUnlike =>
      (HasNestedString(d, "like", "post_id") || HasString(d, "PostID"))
      && (HasNestedString(d, "like", "user_id") || HasString(d, "UserID"))
    case NewComment => HasString(d, "post_id") && HasString(d, "user_id")
    case CommentDeleted => HasString(d, "post_id")
    case CommentLike => HasString(d, "post_id") && HasString(d, "user_id")
    case CommentUnlike =>
      (HasString(d, "ID") || HasString(d, "replyId")) && (HasString(d, "User") || HasString(d, "user_id"))
    case PostDeleted => HasString(d, "id")
  }

  /** A dictionary payload passes its handler's guard exactly when it carries
      every required field with the right type. */
  lemma DecodeAcceptsExactly(kind: EventKind, d: map<string, Json>)
    ensures Decode(kind, JObject(d)).Some? <==> HasRequiredFields(kind, d)
  {
  }

  /** An accepted payload's event carries the payload's own values: the
      required ids from their keys (the first spelling when both are
      present), and the optional fields as they are. */
  lemma DecodeReadsFields(kind: EventKind, d: map<string, Json>, e: Event)
    requires Decode(kind, JObject(d)) == Some(e)
    ensures HasRequiredFields(kind, d) && KindOf(e) == kind
    ensures e.PostLiked? ==>
      && e.postId == d["like"].fields["post_id"].str && e.actor == d["like"].fields["user_id"].str
      && e.count == d["count"].num
      && e.owner == StringAt(d["like"].fields, "owner") && e.username == StringAt(d["like"].fields, "username")
    ensures e.PostUnliked? ==>
      && e.postId == (if HasNestedString(d, "like", "post_id") then d["like"].fields["post_id"].str else d["PostID"].str)
      && e.actor == (if HasNestedString(d, "like", "user_id") then d["like"].fields["user_id"].str else d["UserID"].str)
    ensures e.CommentAdded? ==>
      && e.postId == d["post_id"].str && e.actor == d["user_id"].str
      && e.owner == StringAt(d, "owner") && e.userName == StringAt(d, "user_name") && e.content == StringAt(d, "content")
    ensures e.CommentRemoved? ==> e.postId == d["post_id"].str
    ensures e.CommentLiked? ==>
      && e.commentId == d["post_id"].str && e.actor == d["user_id"].str && e.payloadCount == IntAt(d, "count")
      && e.owner == StringAt(d, "owner") && e.username == StringAt(d, "username")
    ensures e.CommentUnliked? ==>
      && e.commentId == (if HasString(d, "ID") then d["ID"].str else d["replyId"].str)
      && e.actor == (if HasString(d, "User") then d["User"].str else d["user_id"].str)
    ensures e.PostRemoved? ==> e.postId == d["id"].str
  {
    DecodeAcceptsExactly(kind, d);
  }

  // ---------------------------------------------------------------------------
  // The tables and how one event changes them

  /** The dictionaries and sets of `RealtimeManager`, as one value. */
  datatype Store = Store(
    likeCount: map<string, int>,
    commentCount: map<string, int>,
    replyLikeCount: map<string, int>,
    replyCount: map<string, int>,
    likedPostIds: set<string>,
    likedCommentIds: set<string>)

  const EmptyStore: Store := Store(map[], map[], map[], map[], {}, {})

  /** `m[k] ?? 0`, what the getters return. */
  function CountIn(m: map<string, int>, k: string): int {
    if k in m then m[k] else 0
  }

  /** `m[k] = max((m[k] ?? 1) - 1, 0)` */
  function Decremented(m: map<string, int>, k: string): map<string, int> {
    m[k := Max((if k in m then m[k] else 1) - 1, 0)]
  }

  /** A decrement ends at the old count minus one, floored at zero (an unseen
      id ends at zero), stores the key, and touches no other key. */
  lemma DecrementedFloorsAtZero(m: map<string, int>, k: string)
    ensures k in Decremented(m, k)
    ensures CountIn(Decremented(m, k), k) == Max(CountIn(m, k) - 1, 0)
    ensures CountIn(Decremented(m, k), k) >= 0
    ensures forall j :: j != k ==> (j in Decremented(m, k) <==> j in m) && CountIn(Decremented(m, k), j) == CountIn(m, j)
  {
  }

  /** How one decoded event changes the tables when the local user is `me`. */
  function Step(s: Store, e: Event, me: string): Store {
    match e
    case PostLiked(p, actor, count, _, _) =>
      s.(likeCount := s.likeCount[p := count],
         likedPostIds := if actor == me then s.likedPostIds + {p} else s.likedPostIds)
    case PostUnliked(p, actor) =>
      s.(likeCount := Decremented(s.likeCount, p),
         likedPostIds := if actor == me then s.likedPostIds - {p} else s.likedPostIds)
    case CommentAdded(p, _, _, _, _) =>
      s.(commentCount := s.commentCount[p := CountIn(s.commentCount, p) + 1])
    case CommentRemoved(p) =>
      s.(commentCount := Decremented(s.commentCount, p))
    case CommentLiked(c, actor, count, _, _) =>
      if actor == me then s
      else s.(replyLikeCount := s.replyLikeCount[c := if count.Some? then count.value else CountIn(s.replyLikeCount, c) + 1])
    case CommentUnliked(c, actor) =>
      if actor == me then s
      else s.(replyLikeCount := Decremented(s.replyLikeCount, c))
    case PostRemoved(p) =>
      s.(likeCount := s.likeCount - {p}, commentCount := s.commentCount - {p}, likedPostIds := s.likedPostIds - {p})
  }

  /** What a handler does with a raw payload: nothing when it fails the
      guards, otherwise Step. */
  function Receive(s: Store, kind: EventKind, data: Json, me: string): Store {
    match Decode(kind, data)
    case None => s
    case Some(e) => Step(s, e, me)
  }

  /** Events handled one after another, in arrival order. */
  function ApplyAll(s: Store, es: seq<Event>, me: string): Store
    decreases |es|
  {
    if es == [] then s else ApplyAll(Step(s, es[0], me), es[1..], me)
  }

  /** POST_LIKE stores the payload's absolute count, whatever was there
      before, so delivering the same event twice is the same as once. */
  lemma PostLikeIsAbsolute(s: Store, t: Store, e: Event, me: string)
    requires e.PostLiked?
    requires s.likedPostIds == t.likedPostIds && s.commentCount == t.commentCount
    ensures CountIn(Step(s, e, me).likeCount, e.postId) == e.count
    ensures Step(Step(s, e, me), e, me) == Step(s, e, me)
    ensures Step(s, e, me).likedPostIds == Step(t, e, me).likedPostIds
    ensures CountIn(Step(s, e, me).likeCount, e.postId) == CountIn(Step(t, e, me).likeCount, e.postId)
  {
  }

  /** NEW-COMMENT1 adds exactly one to the post's comment count (starting from
      zero for an unseen post) and changes nothing else. */
  lemma NewCommentAddsOne(s: Store, e: Event, me: string)
    requires e.CommentAdded?
    ensures CountIn(Step(s, e, me).commentCount, e.postId) == CountIn(s.commentCount, e.postId) + 1
    ensures forall q :: q != e.postId ==> CountIn(Step(s, e, me).commentCount, q) == CountIn(s.commentCount, q)
    ensures Step(s, e, me).(commentCount := s.commentCount) == s
  {
  }

  /** POST_UNLIKE, COMMENT-DELETED and another user's COMMENT-UNLIKE subtract
      one from their table, floored at zero. */
  lemma DecrementingEvents(s: Store, e: Event, me: string)
    requires e.PostUnliked? || e.CommentRemoved? || (e.CommentUnliked? && e.actor != me)
    ensures e.PostUnliked? ==> CountIn(Step(s, e, me).likeCount, e.postId) == Max(CountIn(s.likeCount, e.postId) - 1, 0)
    ensures e.CommentRemoved? ==> CountIn(Step(s, e, me).commentCount, e.postId) == Max(CountIn(s.commentCount, e.postId) - 1, 0)
    ensures e.CommentUnliked? ==> CountIn(Step(s, e, me).replyLikeCount, e.commentId) == Max(CountIn(s.replyLikeCount, e.commentId) - 1, 0)
  {
    match e
    case PostUnliked(p, _) => DecrementedFloorsAtZero(s.likeCount, p);
    case CommentRemoved(p) => DecrementedFloorsAtZero(s.commentCount, p);
    case CommentUnliked(c, _) => DecrementedFloorsAtZero(s.replyLikeCount, c);
  }

  /** Comment likes and unlikes by the local user leave every table as it
      was; another user's comment like stores the payload's count when there
      is one and adds one otherwise. */
  lemma CommentLikeRules(s: Store, e: Event, me: string)
    requires e.CommentLiked? || e.CommentUnliked?
    ensures e.actor == me ==> Step(s, e, me) == s
    ensures e.CommentLiked? && e.actor != me && e.payloadCount.Some? ==> CountIn(Step(s, e, me).replyLikeCount, e.commentId) == e.payloadCount.value
    ensures e.CommentLiked? && e.actor != me && e.payloadCount.None? ==> CountIn(Step(s, e, me).replyLikeCount, e.commentId) == CountIn(s.replyLikeCount, e.commentId) + 1
    ensures Step(s, e, me).(replyLikeCount := s.replyLikeCount) == s
  {
  }

  /** The liked set changes only through the local user's own post likes and
      unlikes, and through post deletion. */
  lemma LikedSetRules(s: Store, e: Event, me: string)
    ensures e.PostLiked? && e.actor == me ==> Step(s, e, me).likedPostIds == s.likedPostIds + {e.postId}
    ensures e.PostUnliked? && e.actor == me ==> Step(s, e, me).likedPostIds == s.likedPostIds - {e.postId}
    ensures e.PostRemoved? ==> Step(s, e, me).likedPostIds == s.likedPostIds - {e.postId}
    ensures !((e.PostLiked? || e.PostUnliked?) && e.actor == me) && !e.PostRemoved?
            ==> Step(s, e, me).likedPostIds == s.likedPostIds
    ensures Step(s, e, me).likedCommentIds == s.likedCommentIds && Step(s, e, me).replyCount == s.replyCount
  {
  }

  /** POST-DELETED forgets the post's like count, comment count and liked
      flag, so the getters then report 0, 0 and false for it; every other id
      and the reply-like table are untouched. */
  lemma PostDeletedCleansUp(s: Store, p: string, me: string)
    ensures var t := Step(s, PostRemoved(p), me);
      && p !in t.likeCount && p !in t.commentCount && p !in t.likedPostIds
      && CountIn(t.likeCount, p) == 0 && CountIn(t.commentCount, p) == 0
      && t.replyLikeCount == s.replyLikeCount
      && (forall q :: q != p ==> (q in t.likeCount <==> q in s.likeCount) && CountIn(t.likeCount, q) == CountIn(s.likeCount, q))
      && (forall q :: q != p ==> (q in t.commentCount <==> q in s.commentCount) && CountIn(t.commentCount, q) == CountIn(s.commentCount, q))
      && (forall q :: q != p ==> (q in t.likedPostIds <==> q in s.likedPostIds))
  {
  }

  /** A payload that is not a dictionary, or that lacks a field its handler
      requires, changes nothing. */
  lemma MalformedPayloadIgnored(s: Store, kind: EventKind, data: Json, me: string)
    requires !data.JObject? || !HasRequiredFields(kind, data.fields)
    ensures Receive(s, kind, data, me) == s
  {
    if data.JObject? {
      DecodeAcceptsExactly(kind, data.fields);
    }
  }

  // ---------------------------------------------------------------------------
  // Non-negative counts

  ghost predicate NonNegative(m: map<string, int>) {
    forall k :: k in m ==> m[k] >= 0
  }

  ghost predicate CountsNonNegative(s: Store) {
    NonNegative(s.likeCount) && NonNegative(s.commentCount) && NonNegative(s.replyLikeCount)
  }

  /** The absolute counts a payload supplies are not negative. */
  predicate SuppliedCountsNonNegative(e: Event) {
    match e
    case PostLiked(_, _, count, _, _) => count >= 0
    case CommentLiked(_, _, count, _, _) => count.None? || count.value >= 0
    case _ => true
  }

  lemma StepKeepsCountsNonNegative(s: Store, e: Event, me: string)
    requires CountsNonNegative(s) && SuppliedCountsNonNegative(e)
    ensures CountsNonNegative(Step(s, e, me))
  {
  }

  /** Counts stay non-negative across any sequence of events whose supplied
      absolute counts are non-negative: increments, clamped decrements and
      deletions cannot take a count below zero. */
  lemma {:induction false} ApplyAllKeepsCountsNonNegative(s: Store, es: seq<Event>, me: string)
    requires CountsNonNegative(s)
    requires forall i :: 0 <= i < |es| ==> SuppliedCountsNonNegative(es[i])
    ensures CountsNonNegative(ApplyAll(s, es, me))
    decreases |es|
  {
    if es != [] {
      StepKeepsCountsNonNegative(s, es[0], me);
      ApplyAllKeepsCountsNonNegative(Step(s, es[0], me), es[1..], me);
    }
  }

  /** Handling events one by one is handling their concatenation. */
  lemma {:induction false} ApplyAllAppend(s: Store, es: seq<Event>, fs: seq<Event>, me: string)
    ensures ApplyAll(s, es + fs, me) == ApplyAll(ApplyAll(s, es, me), fs, me)
    decreases |es|
  {
    if es == [] {
      assert es + fs == fs;
    } else {
      assert (es + fs)[1..] == es[1..] + fs;
      ApplyAllAppend(Step(s, es[0], me), es[1..], fs, me);
    }
  }

  // ---------------------------------------------------------------------------
  // Notifications

  datatype Notification = Notification(title: string, body: string)

  /** The body of a new-comment notification: the first 50 characters of the
      comment in quotes, or a fixed text when there is no content. */
  function CommentBody(content: Option<string>): string {
    var excerpt := Prefix(content.GetOr(""), 50);
    if excerpt == [] then "Check out their comment" else "\"" + excerpt + "...\""
  }

  /** The notification a handler raises for an event, if any. */
  function NotificationFor(e: Event, me: string): Option<Notification> {
    match e
    case PostLiked(_, actor, _, owner, username) =>
      if owner == Some(me) && actor != me && username.Some?
      then Some(Notification("\U{1F44D} " + username.value + " liked your post!", "Your content is getting engagement!"))
      else None
    case CommentAdded(_, actor, owner, userName, content) =>
      if owner == Some(me) && actor != me && userName.Some?
      then Some(Notification("\U{1F4AC} " + userName.value + " commented on your post", CommentBody(content)))
      else None
    case CommentLiked(_, actor, _, owner, username) =>
      if actor != me && owner == Some(me) && username.Some?
      then Some(Notification("\U{2764}\U{FE0F} " + username.value + " liked your comment!", "Your comment resonated with someone!"))
      else None
    case _ => None
  }

  /** A notification is raised exactly for a like, comment or comment like by
      someone else on content the local user owns, when the payload names the
      actor; the title carries that name. */
  lemma NotificationDecision(e: Event, me: string)
    ensures NotificationFor(e, me).Some? <==>
      && (e.PostLiked? || e.CommentAdded? || e.CommentLiked?)
      && e.owner == Some(me) && e.actor != me
      && (if e.CommentAdded? then e.userName.Some? else e.username.Some?)
    ensures NotificationFor(e, me).Some? && e.PostLiked? ==>
      NotificationFor(e, me).value.title[2..2 + |e.username.value|] == e.username.value
    ensures NotificationFor(e, me).Some? && e.CommentAdded? ==>
      && NotificationFor(e, me).value.title[2..2 + |e.userName.value|] == e.userName.value
      && NotificationFor(e, me).value.body == CommentBody(e.content)
    ensures NotificationFor(e, me).Some? && e.CommentLiked? ==>
      NotificationFor(e, me).value.title[3..3 + |e.username.value|] == e.username.value
  {
  }

  /** The comment body quotes at most 50 characters, and exactly the start of
      the comment; an empty or missing comment gets the fixed text. */
  lemma CommentBodyExcerpt(content: Option<string>)
    ensures content.GetOr("") == [] ==> CommentBody(content) == "Check out their comment"
    ensures content.GetOr("") != [] ==>
      var b := CommentBody(content);
      && |b| == Min(50, |content.value|) + 5
      && b[0] == '"' && b[|b| - 4..] == "...\""
      && b[1..|b| - 4] == content.value[..Min(50, |content.value|)]
  {
  }

  // ---------------------------------------------------------------------------
  // Seeding from post data and from the batch endpoints

  /** What `initializeCounts` does for one post. */
  function SeedPost(s: Store, p: Post, user: Option<string>): Store {
    s.(likeCount := s.likeCount[p.id := LikeCount(p)],
       commentCount := s.commentCount[p.id := CommentCount(p)],
       likedPostIds := if user.Some? && LikedBy(p, user.value) then s.likedPostIds + {p.id} else s.likedPostIds)
  }

  /** `initializeCounts(posts:)`: the posts in order, a later post with the
      same id overwriting an earlier one. */
  function SeedFromPosts(s: Store, ps: seq<Post>, user: Option<string>): Store {
    if ps == [] then s else SeedPost(SeedFromPosts(s, ps[..|ps| - 1], user), ps[|ps| - 1], user)
  }

  /** The ids of a list of posts. */
  function PostIds(ps: seq<Post>): set<string> {
    if ps == [] then {} else PostIds(ps[..|ps| - 1]) + {ps[|ps| - 1].id}
  }

  lemma {:induction false} PostIdsMembership(ps: seq<Post>, id: string)
    ensures id in PostIds(ps) <==> exists i :: 0 <= i < |ps| && ps[i].id == id
  {
    if ps != [] {
      var init := ps[..|ps| - 1];
      PostIdsMembership(init, id);
      if id in PostIds(init) {
        var i :| 0 <= i < |init| && init[i].id == id;
        assert ps[i] == init[i];
      }
      if exists i :: 0 <= i < |ps| && ps[i].id == id {
        var i :| 0 <= i < |ps| && ps[i].id == id;
        if i < |init| { assert init[i] == ps[i]; }
      }
    }
  }

  /** Seeding adds exactly the posts' ids to the count tables, keeps the
      counts of every other id, and touches neither the reply tables nor the
      liked-comment set. */
  lemma {:induction false} SeedTouchesOnlyPostIds(s: Store, ps: seq<Post>, user: Option<string>)
    ensures var t := SeedFromPosts(s, ps, user);
      && t.likeCount.Keys == s.likeCount.Keys + PostIds(ps)
      && t.commentCount.Keys == s.commentCount.Keys + PostIds(ps)
      && (forall k :: k !in PostIds(ps) ==>
            CountIn(t.likeCount, k) == CountIn(s.likeCount, k) && CountIn(t.commentCount, k) == CountIn(s.commentCount, k))
      && t.replyLikeCount == s.replyLikeCount && t.replyCount == s.replyCount && t.likedCommentIds == s.likedCommentIds
  {
    if ps != [] {
      SeedTouchesOnlyPostIds(s, ps[..|ps| - 1], user);
    }
  }

  /** After seeding, a post's counts are those of the last post in the list
      that has its id. */
  lemma {:induction false} SeedLastPostWins(s: Store, ps: seq<Post>, user: Option<string>, i: nat)
    requires i < |ps|
    requires forall j :: i < j < |ps| ==> ps[j].id != ps[i].id
    ensures ps[i].id in SeedFromPosts(s, ps, user).likeCount && ps[i].id in SeedFromPosts(s, ps, user).commentCount
    ensures CountIn(SeedFromPosts(s, ps, user).likeCount, ps[i].id) == LikeCount(ps[i])
    ensures CountIn(SeedFromPosts(s, ps, user).commentCount, ps[i].id) == CommentCount(ps[i])
  {
    if i < |ps| - 1 {
      var init := ps[..|ps| - 1];
      forall j | i < j < |init| ensures init[j].id != init[i].id {
        assert init[j] == ps[j];
      }
      SeedLastPostWins(s, init, user, i);
    }
  }

  /** Seeding only adds to the liked set: the posts whose `likes` names the
      configured user, and none when no user is configured. */
  lemma {:induction false} SeedLikedSet(s: Store, ps: seq<Post>, user: Option<string>)
    ensures SeedFromPosts(s, ps, user).likedPostIds
            == (if user.Some? then s.likedPostIds + LikedIds(ps, user.value) else s.likedPostIds)
  {
    if ps != [] {
      SeedLikedSet(s, ps[..|ps| - 1], user);
    }
  }

  /** Counts taken from array sizes are never negative. */
  lemma {:induction false} SeedKeepsCountsNonNegative(s: Store, ps: seq<Post>, user: Option<string>)
    requires CountsNonNegative(s)
    ensures CountsNonNegative(SeedFromPosts(s, ps, user))
  {
    if ps != [] {
      SeedKeepsCountsNonNegative(s, ps[..|ps| - 1], user);
    }
  }

  /** `batchInitializeCounts`: the batch dictionaries overwrite exactly their
      own ids; the liked set gains the posts the configured user liked, and
      nothing when no user is configured. */
  function BatchSeed(s: Store, likeCounts: map<string, int>, commentCounts: map<string, int>,
                     ps: seq<Post>, user: Option<string>): Store
  {
    s.(likeCount := s.likeCount + likeCounts,
       commentCount := s.commentCount + commentCounts,
       likedPostIds := if user.Some? then s.likedPostIds + LikedIds(ps, user.value) else s.likedPostIds)
  }

  /** Batch seeding leaves every id absent from a dictionary alone, only ever
      adds to the liked set, and adds nothing to it without a user. */
  lemma BatchSeedResult(s: Store, likeCounts: map<string, int>, commentCounts: map<string, int>,
                        ps: seq<Post>, user: Option<string>)
    ensures var t := BatchSeed(s, likeCounts, commentCounts, ps, user);
      && (forall k :: k in likeCounts ==> CountIn(t.likeCount, k) == likeCounts[k])
      && (forall k :: k !in likeCounts ==> (k in t.likeCount <==> k in s.likeCount) && CountIn(t.likeCount, k) == CountIn(s.likeCount, k))
      && (forall k :: k in commentCounts ==> CountIn(t.commentCount, k) == commentCounts[k])
      && (forall k :: k !in commentCounts ==> (k in t.commentCount <==> k in s.commentCount) && CountIn(t.commentCount, k) == CountIn(s.commentCount, k))
      && s.likedPostIds <= t.likedPostIds
      && (user.None? ==> t.likedPostIds == s.likedPostIds)
      && (forall id :: id in t.likedPostIds - s.likedPostIds ==>
            exists i :: 0 <= i < |ps| && ps[i].id == id && LikedBy(ps[i], user.value))
      && t.replyLikeCount == s.replyLikeCount
  {
    var t := BatchSeed(s, likeCounts, commentCounts, ps, user);
    forall id | id in t.likedPostIds - s.likedPostIds
      ensures exists i :: 0 <= i < |ps| && ps[i].id == id && LikedBy(ps[i], user.value)
    {
      LikedIdsMembership(ps, user.value, id);
    }
  }

  // ---------------------------------------------------------------------------
  // The manager

  /** `RealtimeManager`: the tables as mutable fields, the handlers as methods.
      The Pusher connection and the bindings are not part of this model; a
      handler is called with the payload and the user id captured when the
      bindings were set up. */
  class RealtimeManager {
    var currentUserId: Option<string>
    var likeCount: map<string, int>
    var commentCount: map<string, int>
    var replyLikeCount: map<string, int>
    var replyCount: map<string, int>
    var likedPostIds: set<string>
    var likedCommentIds: set<string>

    function Snapshot(): Store
      reads this
    {
      Store(likeCount, commentCount, replyLikeCount, replyCount, likedPostIds, likedCommentIds)
    }

    constructor ()
      ensures Snapshot() == EmptyStore && currentUserId == None
    {
      currentUserId := None;
      likeCount, commentCount, replyLikeCount, replyCount := map[], map[], map[], map[];
      likedPostIds, likedCommentIds := {}, {};
    }

    /** The bookkeeping part of `configure`: remember the user. */
    method Configure(userId: string)
      modifies this
      ensures currentUserId == Some(userId) && Snapshot() == old(Snapshot())
    {
      currentUserId := Some(userId);
    }

    function GetLikeCount(postId: string): int
      reads this
    {
      CountIn(likeCount, postId)
    }

    function GetCommentCount(postId: string): int
      reads this
    {
      CountIn(commentCount, postId)
    }

    predicate IsLiked(postId: string)
      reads this
    {
      postId in likedPostIds
    }

    predicate IsCommentLiked(commentId: string)
      reads this
    {
      commentId in likedCommentIds
    }

    method HandlePostLike(data: Json, me: string) returns (n: Option<Notification>)
      modifies this
      ensures Snapshot() == Receive(old(Snapshot()), PostLike, data, me)
      ensures currentUserId == old(currentUserId)
      ensures n == (if Decode(PostLike, data).Some? then NotificationFor(Decode(PostLike, data).value, me) else None)
    {
      n := None;
      var decoded := Decode(PostLike, data);
      if decoded.None? { return; }
      var e := decoded.value;
      likeCount := likeCount[e.postId := e.count];
      if e.actor == me {
        likedPostIds := likedPostIds + {e.postId};
      }
      if e.owner == Some(me) && e.actor != me && e.username.Some? {
        n := Some(Notification("\U{1F44D} " + e.username.value + " liked your post!", "Your content is getting engagement!"));
      }
    }

    method HandlePostUnlike(data: Json, me: string)
      modifies this
      ensures Snapshot() == Receive(old(Snapshot()), PostUnlike, data, me)
      ensures currentUserId == old(currentUserId)
    {
      var decoded := Decode(PostUnlike, data);
      if decoded.None? { return; }
      var e := decoded.value;
      likeCount := likeCount[e.postId := Max((if e.postId in likeCount then likeCount[e.postId] else 1) - 1, 0)];
      if e.actor == me {
        likedPostIds := likedPostIds - {e.postId};
      }
    }

    method HandleNewComment(data: Json, me: string) returns (n: Option<Notification>)
      modifies this
      ensures Snapshot() == Receive(old(Snapshot()), NewComment, data, me)
      ensures currentUserId == old(currentUserId)
      ensures n == (if Decode(NewComment, data).Some? then NotificationFor(Decode(NewComment, data).value, me) else None)
    {
      n := None;
      var decoded := Decode(NewComment, data);
      if decoded.None? { return; }
      var e := decoded.value;
      commentCount := commentCount[e.postId := (if e.postId in commentCount then commentCount[e.postId] else 0) + 1];
      if e.owner == Some(me) && e.actor != me && e.userName.Some? {
        var content := e.content.GetOr("");
        var excerpt := Prefix(content, 50);
        var body := if excerpt == [] then "Check out their comment" else "\"" + excerpt + "...\"";
        n := Some(Notification("\U{1F4AC} " + e.userName.value + " commented on your post", body));
      }
    }

    method HandleCommentDeleted(data: Json, me: string)
      modifies this
      ensures Snapshot() == Receive(old(Snapshot()), CommentDeleted, data, me)
      ensures currentUserId == old(currentUserId)
    {
      var decoded := Decode(CommentDeleted, data);
      if decoded.None? { return; }
      var e := decoded.value;
      commentCount := commentCount[e.postId := Max((if e.postId in commentCount then commentCount[e.postId] else 1) - 1, 0)];
    }

    method HandleCommentLike(data: Json, me: string) returns (n: Option<Notification>)
      modifies this
      ensures Snapshot() == Receive(old(Snapshot()), CommentLike, data, me)
      ensures currentUserId == old(currentUserId)
      ensures n == (if Decode(CommentLike, data).Some? then NotificationFor(Decode(CommentLike, data).value, me) else None)
    {
      n := None;
      var decoded := Decode(CommentLike, data);
      if decoded.None? { return; }
      var e := decoded.value;
      if e.actor == me { return; }
      if e.payloadCount.Some? {
        replyLikeCount := replyLikeCount[e.commentId := e.payloadCount.value];
      } else {
        replyLikeCount := replyLikeCount[e.commentId := (if e.commentId in replyLikeCount then replyLikeCount[e.commentId] else 0) + 1];
      }
      if e.owner == Some(me) && e.username.Some? {
        n := Some(Notification("\U{2764}\U{FE0F} " + e.username.value + " liked your comment!", "Your comment resonated with someone!"));
      }
    }

    method HandleCommentUnlike(data: Json, me: string)
      modifies this
      ensures Snapshot() == Receive(old(Snapshot()), CommentUnlike, data, me)
      ensures currentUserId == old(currentUserId)
    {
      var decoded := Decode(CommentUnlike, data);
      if decoded.None? { return; }
      var e := decoded.value;
      if e.actor == me { return; }
      replyLikeCount := replyLikeCount[e.commentId := Max((if e.commentId in replyLikeCount then replyLikeCount[e.commentId] else 1) - 1, 0)];
    }

    method HandlePostDeleted(data: Json, me: string)
      modifies this
      ensures Snapshot() == Receive(old(Snapshot()), PostDeleted, data, me)
      ensures currentUserId == old(currentUserId)
    {
      var decoded := Decode(PostDeleted, data);
      if decoded.None? { return; }
      var e := decoded.value;
      likeCount := likeCount - {e.postId};
      commentCount := commentCount - {e.postId};
      likedPostIds := likedPostIds - {e.postId};
    }

    /** `initializeCounts(posts:)` */
    method InitializeCounts(posts: seq<Post>)
      modifies this
      ensures Snapshot() == SeedFromPosts(old(Snapshot()), posts, currentUserId)
      ensures currentUserId == old(currentUserId)
    {
      for i := 0 to |posts|
        invariant currentUserId == old(currentUserId)
        invariant Snapshot() == SeedFromPosts(old(Snapshot()), posts[..i], currentUserId)
      {
        var post := posts[i];
        likeCount := likeCount[post.id := LikeCount(post)];
        commentCount := commentCount[post.id := CommentCount(post)];
        if post.likes.Some? && currentUserId.Some? && currentUserId.value in post.likes.value {
          likedPostIds := likedPostIds + {post.id};
        }
        assert posts[..i + 1][..i] == posts[..i];
      }
      assert posts[..|posts|] == posts;
    }

    /** `batchInitializeCounts(likeCounts:commentCounts:posts:)` */
    method BatchInitializeCounts(likeCounts: map<string, int>, commentCounts: map<string, int>, posts: seq<Post>)
      modifies this
      ensures Snapshot() == BatchSeed(old(Snapshot()), likeCounts, commentCounts, posts, currentUserId)
      ensures currentUserId == old(currentUserId)
    {
      likeCount := Assign(likeCount, likeCounts);
      commentCount := Assign(commentCount, commentCounts);
      assert likeCount == old(likeCount) + likeCounts;
      assert commentCount == old(commentCount) + commentCounts;

      if currentUserId.None? { return; }
      var userId := currentUserId.value;
      for i := 0 to |posts|
        invariant Snapshot() == old(Snapshot()).(likeCount := old(likeCount) + likeCounts,
                                                commentCount := old(commentCount) + commentCounts,
                                                likedPostIds := old(likedPostIds) + LikedIds(posts[..i], userId))
        invariant currentUserId == old(currentUserId)
      {
        if posts[i].likes.Some? && userId in posts[i].likes.value {
          likedPostIds := likedPostIds + {posts[i].id};
        }
        assert posts[..i + 1][..i] == posts[..i];
      }
      assert posts[..|posts|] == posts;
    }
  }
}
