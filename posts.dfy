// Posts handler: the post record and its media, post-type classification,
// creation, editing, soft deletion, the community listing sorts, the trending
// window and the first-match route dispatch.

module Posts {
  import opened Common

  // ------------------------------------------------------------------ records

  datatype Dimensions = Dimensions(width: int, height: int)

  /** One media item as the client sends it; a missing field is `None`. */
  datatype MediaInput = MediaInput(
    kind: Option<string>, url: Option<string>, thumbnail: Option<string>,
    caption: Option<string>, filename: Option<string>, size: int,
    mimeType: Option<string>, duration: int, dimensions: Option<Dimensions>,
    qualities: Option<seq<string>>, hlsManifest: Option<string>)

  datatype MediaMeta = MediaMeta(
    filename: string, size: int, mimeType: string, duration: Option<int>,
    dimensions: Option<Dimensions>, qualities: Option<seq<string>>,
    hlsManifest: Option<string>)

  /** One media item as it is stored on a post. */
  datatype Media = Media(kind: string, url: Option<string>, thumbnail: Option<string>,
                         meta: MediaMeta, caption: string)

  /** The `ogContent` reference a crosspost carries. */
  datatype OriginalRef = OriginalRef(postId: string, community: string, title: string, userId: string)

  /** A post item (`PK = COMM#community`, `SK = POST#postId`); `edited` is false until an edit. */
  datatype Post = Post(
    postId: string, community: string, userId: string, title: string, body: string,
    media: seq<Media>, postType: string, tags: seq<string>, flair: Option<string>,
    nsfw: bool, spoiler: bool,
    score: int, upvotes: int, downvotes: int, commentCount: int, viewCount: int,
    shareCount: int, awardCount: int,
    status: string, isCrosspost: bool, originalPost: Option<OriginalRef>,
    createdAt: int, updatedAt: int, edited: bool)

  /** The posts the handler sees, by postId, and each community's `postCount` counter. */
  datatype Store = Store(posts: map<string, Post>, postCounts: map<string, int>)

  datatype Outcome = Outcome(status: nat, message: string, store: Store)

  /** A counter the store does not hold reads as 0 under `ADD`. */
  function Counter(m: map<string, int>, k: string): int {
    if k in m then m[k] else 0
  }

  function AddTo(m: map<string, int>, k: string, delta: int): (r: map<string, int>)
    ensures Counter(r, k) == Counter(m, k) + delta
    ensures forall j :: j != k ==> Counter(r, j) == Counter(m, j)
  {
    m[k := Counter(m, k) + delta]
  }

  // -------------------------------------------------------- media and type

  /** Normalise one client media item, filling the documented defaults. */
  function NormalizeOne(m: MediaInput): (r: Media)
    ensures r.kind == if Truthy(m.kind) then m.kind.value else "image"
    ensures r.thumbnail == if Truthy(m.thumbnail) then m.thumbnail else m.url
    ensures r.caption == if Truthy(m.caption) then m.caption.value else ""
    ensures r.url == m.url
  {
    Media(
      OrElse(m.kind, "image"),
      m.url,
      if Truthy(m.thumbnail) then m.thumbnail else m.url,
      MediaMeta(
        OrElse(m.filename, ""),
        m.size,
        OrElse(m.mimeType, ""),
        if m.duration != 0 then Some(m.duration) else None,
        m.dimensions,
        m.qualities,
        if Truthy(m.hlsManifest) then m.hlsManifest else None),
      OrElse(m.caption, ""))
  }

  /** `(media || []).map(...)`: one stored item per client item, in order. */
  function NormalizeMedia(ms: Option<seq<MediaInput>>): (r: seq<Media>)
    ensures ms.None? ==> r == []
    ensures ms.Some? ==> |r| == |ms.value|
    ensures ms.Some? ==> forall i :: 0 <= i < |r| ==> r[i] == NormalizeOne(ms.value[i])
  {
    if ms.None? then []
    else seq(|ms.value|, i requires 0 <= i < |ms.value| => NormalizeOne(ms.value[i]))
  }

  predicate HasKind(ms: seq<Media>, k: string) {
    exists i :: 0 <= i < |ms| && ms[i].kind == k
  }

  /** The kinds the post-type rule recognises. */
  predicate KnownKind(k: string) {
    k == "video" || k == "image" || k == "gif" || k == "audio" || k == "document"
  }

  /** Post type: the first of video, image/gif, audio, document present, else text. */
  function PostType(ms: seq<Media>): (r: string)
    ensures r in {"text", "video", "image", "audio", "link"}
    ensures r == "text" <==> forall i :: 0 <= i < |ms| ==> !KnownKind(ms[i].kind)
    ensures r == "video" <==> HasKind(ms, "video")
    ensures r == "image" <==> !HasKind(ms, "video") && (HasKind(ms, "image") || HasKind(ms, "gif"))
    ensures r == "audio" <==>
      !HasKind(ms, "video") && !HasKind(ms, "image") && !HasKind(ms, "gif") && HasKind(ms, "audio")
    ensures r == "link" <==>
      !HasKind(ms, "video") && !HasKind(ms, "image") && !HasKind(ms, "gif") && !HasKind(ms, "audio")
      && HasKind(ms, "document")
  {
    if |ms| == 0 then "text"
    else if HasKind(ms, "video") then "video"
    else if HasKind(ms, "image") || HasKind(ms, "gif") then "image"
    else if HasKind(ms, "audio") then "audio"
    else if HasKind(ms, "document") then "link"
    else "text"
  }

  /** A non-empty upload whose items carry no type is an image post. */
  lemma UntypedMediaIsImage(ms: seq<MediaInput>)
    requires |ms| > 0
    requires forall i :: 0 <= i < |ms| ==> !Truthy(ms[i].kind)
    ensures PostType(NormalizeMedia(Some(ms))) == "image"
  {
    var r := NormalizeMedia(Some(ms));
    assert forall i :: 0 <= i < |r| ==> r[i].kind == "image";
    assert r[0].kind == "image";
  }

  // ------------------------------------------------------------------ create

  datatype CreateRequest = CreateRequest(
    title: Option<string>, body: Option<string>, media: Option<seq<MediaInput>>,
    userId: Option<string>, tags: Option<seq<string>>, flair: Option<string>,
    nsfw: bool, spoiler: bool, ogContent: Option<OriginalRef>)

  /** The item a successful create writes. */
  function NewPost(community: string, req: CreateRequest, postId: string, now: int): Post
    requires Truthy(req.title) && Truthy(req.userId)
  {
    var media := NormalizeMedia(req.media);
    Post(postId, community, req.userId.value, req.title.value, OrElse(req.body, ""),
         media, PostType(media), if req.tags.Some? then req.tags.value else [],
         if Truthy(req.flair) then req.flair else None,
         req.nsfw, req.spoiler,
         0, 0, 0, 0, 0, 0, 0,
         "active", req.ogContent.Some?, req.ogContent,
         now, now, false)
  }

  lemma NewPostDefaults(community: string, req: CreateRequest, postId: string, now: int)
    requires Truthy(req.title) && Truthy(req.userId)
    ensures var p := NewPost(community, req, postId, now);
      p.score == 0 && p.upvotes == 0 && p.downvotes == 0 && p.commentCount == 0
      && p.viewCount == 0 && p.shareCount == 0 && p.awardCount == 0
      && p.status == "active" && !p.edited && p.createdAt == p.updatedAt == now
      && (req.body.None? ==> p.body == "")
      && (req.tags.None? ==> p.tags == [])
      && p.isCrosspost == req.ogContent.Some?
      && |p.media| == (if req.media.Some? then |req.media.value| else 0)
      && (p.postType == "text" <==> forall i :: 0 <= i < |p.media| ==> !KnownKind(p.media[i].kind))
  {
  }

  /** POST /communities/{name}/posts. */
  function CreatePost(s: Store, community: string, req: CreateRequest, postId: string, now: int): (o: Outcome)
    ensures !Truthy(req.title) ==> o == Outcome(400, "title required", s)
    ensures Truthy(req.title) && !Truthy(req.userId) ==> o == Outcome(400, "userId required", s)
    ensures o.status == 201 <==> Truthy(req.title) && Truthy(req.userId)
    ensures o.status == 201 ==>
      o.store.posts == s.posts[postId := NewPost(community, req, postId, now)]
      && Counter(o.store.postCounts, community) == Counter(s.postCounts, community) + 1
      && forall c :: c != community ==> Counter(o.store.postCounts, c) == Counter(s.postCounts, c)
  {
    if !Truthy(req.title) then Outcome(400, "title required", s)
    else if !Truthy(req.userId) then Outcome(400, "userId required", s)
    else
      Outcome(201, "", Store(s.posts[postId := NewPost(community, req, postId, now)],
                             AddTo(s.postCounts, community, 1)))
  }

  // -------------------------------------------------------------------- edit

  /** An `ExpressionAttributeValues` entry. */
  datatype Value = Text(text: string) | Flag(flag: bool) | Stamp(at: int) | List(items: seq<string>)

  /**
   * The SET clauses and values of an edit: updatedAt and edited always,
   * title and tags when truthy, body whenever it is defined.
   */
  method BuildEdit(title: Option<string>, body: Option<string>, tags: Option<seq<string>>, now: int)
    returns (updates: seq<string>, values: map<string, Value>)
    ensures |updates| >= 2 && updates[..2] == ["updatedAt = :now", "edited = :edited"]
    ensures ":now" in values && values[":now"] == Stamp(now)
    ensures ":edited" in values && values[":edited"] == Flag(true)
    ensures ("title = :title" in updates) == Truthy(title) == (":title" in values)
    ensures Truthy(title) ==> values[":title"] == Text(title.value)
    ensures ("body = :body" in updates) == body.Some? == (":body" in values)
    ensures body.Some? ==> values[":body"] == Text(body.value)
    ensures ("tags = :tags" in updates) == tags.Some? == (":tags" in values)
    ensures tags.Some? ==> values[":tags"] == List(tags.value)
    ensures values.Keys <= {":now", ":edited", ":title", ":body", ":tags"}
    ensures |updates| == |values|
  {
    updates := ["updatedAt = :now", "edited = :edited"];
    values := map[":now" := Stamp(now), ":edited" := Flag(true)];
    if Truthy(title) {
      updates := updates + ["title = :title"];
      values := values[":title" := Text(title.value)];
    }
    if body.Some? {
      updates := updates + ["body = :body"];
      values := values[":body" := Text(body.value)];
    }
    if tags.Some? {
      updates := updates + ["tags = :tags"];
      values := values[":tags" := List(tags.value)];
    }
  }

  /** What the store does with `SET updatedAt = :now, edited = :edited[, title, body, tags]`. */
  function ApplyEdit(p: Post, values: map<string, Value>): Post {
    var stamped := p.(updatedAt := if ":now" in values && values[":now"].Stamp? then values[":now"].at else p.updatedAt,
                      edited := if ":edited" in values && values[":edited"].Flag? then values[":edited"].flag else p.edited);
    var titled := if ":title" in values && values[":title"].Text? then stamped.(title := values[":title"].text) else stamped;
    var bodied := if ":body" in values && values[":body"].Text? then titled.(body := values[":body"].text) else titled;
    if ":tags" in values && values[":tags"].List? then bodied.(tags := values[":tags"].items) else bodied
  }

  /** PUT /posts/{postId}: only the owner may edit. */
  method EditPost(s: Store, postId: string, userId: Option<string>, title: Option<string>,
                  body: Option<string>, tags: Option<seq<string>>, now: int)
    returns (o: Outcome)
    ensures !Truthy(userId) ==> o == Outcome(400, "userId required", s)
    ensures Truthy(userId) && postId !in s.posts ==> o == Outcome(404, "post not found", s)
    ensures Truthy(userId) && postId in s.posts && s.posts[postId].userId != userId.value ==>
      o == Outcome(403, "not authorized", s)
    ensures o.status == 200 <==> Truthy(userId) && postId in s.posts && s.posts[postId].userId == userId.value
    ensures o.status == 200 ==>
      var p := s.posts[postId];
      o.store == s.(posts := s.posts[postId := p.(
        updatedAt := now, edited := true,
        title := if Truthy(title) then title.value else p.title,
        body := if body.Some? then body.value else p.body,
        tags := if tags.Some? then tags.value else p.tags)])
  {
    if !Truthy(userId) {
      return Outcome(400, "userId required", s);
    }
    if postId !in s.posts {
      return Outcome(404, "post not found", s);
    }
    var p := s.posts[postId];
    if p.userId != userId.value {
      return Outcome(403, "not authorized", s);
    }
    var updates, values := BuildEdit(title, body, tags, now);
    o := Outcome(200, "post updated", s.(posts := s.posts[postId := ApplyEdit(p, values)]));
  }

  // ------------------------------------------------------------------ delete

  /** DELETE /posts/{postId}: an owner's soft delete. */
  function DeletePost(s: Store, postId: string, userId: Option<string>, now: int): (o: Outcome)
    ensures !Truthy(userId) ==> o == Outcome(400, "userId required", s)
    ensures Truthy(userId) && postId !in s.posts ==> o == Outcome(404, "post not found", s)
    ensures o.status == 403 <==> Truthy(userId) && postId in s.posts && s.posts[postId].userId != userId.value
    ensures o.status == 200 <==> Truthy(userId) && postId in s.posts && s.posts[postId].userId == userId.value
    ensures o.status != 200 ==> o.store == s
    ensures o.status == 200 ==>
      var p := s.posts[postId];
      o.store.posts == s.posts[postId := p.(status := "deleted", body := "[deleted]", updatedAt := now)]
      && Counter(o.store.postCounts, p.community) == Counter(s.postCounts, p.community) - 1
      && forall c :: c != p.community ==> Counter(o.store.postCounts, c) == Counter(s.postCounts, c)
  {
    if !Truthy(userId) then Outcome(400, "userId required", s)
    else if postId !in s.posts then Outcome(404, "post not found", s)
    else
      var p := s.posts[postId];
      if p.userId != userId.value then Outcome(403, "not authorized", s)
      else
        Outcome(200, "post deleted",
                Store(s.posts[postId := p.(status := "deleted", body := "[deleted]", updatedAt := now)],
                      AddTo(s.postCounts, p.community, -1)))
  }

  /** Deleting a post just created restores the community's postCount and keeps the record. */
  lemma CreateThenDelete(s: Store, community: string, req: CreateRequest, postId: string, t1: int, t2: int)
    requires Truthy(req.title) && Truthy(req.userId)
    ensures var c := CreatePost(s, community, req, postId, t1);
      var d := DeletePost(c.store, postId, req.userId, t2);
      d.status == 200
      && Counter(d.store.postCounts, community) == Counter(s.postCounts, community)
      && postId in d.store.posts && d.store.posts[postId].status == "deleted"
      && d.store.posts[postId].body == "[deleted]"
  {
    var c := CreatePost(s, community, req, postId, t1);
    assert c.store.posts[postId].community == community;
  }

  // ----------------------------------------------------------------- listing

  /** `min(up, down) * (up + down)`. */
  function Controversy(p: Post): int {
    (if p.upvotes <= p.downvotes then p.upvotes else p.downvotes) * (p.upvotes + p.downvotes)
  }

  lemma ControversyZero(p: Post)
    requires p.upvotes >= 0 && p.downvotes >= 0
    requires p.upvotes == 0 || p.downvotes == 0
    ensures Controversy(p) == 0
  {
  }

  /** A post with balanced votes is at least as controversial as any split of fewer votes. */
  lemma ControversyBalanced(p: Post, q: Post)
    requires p.upvotes == p.downvotes >= 0
    requires q.upvotes >= 0 && q.downvotes >= 0 && q.upvotes + q.downvotes <= p.upvotes + p.downvotes
    ensures Controversy(q) <= Controversy(p)
  {
    var m := if q.upvotes <= q.downvotes then q.upvotes else q.downvotes;
    assert m <= p.upvotes;
    assert m * (q.upvotes + q.downvotes) <= p.upvotes * (q.upvotes + q.downvotes);
    assert p.upvotes * (q.upvotes + q.downvotes) <= p.upvotes * (p.upvotes + p.downvotes);
  }

  function ScoreKey(p: Post): real { p.score as real }
  function ControversyKey(p: Post): real { Controversy(p) as real }
  predicate IsActive(p: Post) { p.status == "active" }

  /**
   * GET /communities/{name}/posts: active posts of the queried page, ordered
   * by the `sort` parameter (`hot` uses the opaque hot ranking).
   */
  function ListPosts(items: seq<Post>, sort: Option<string>, hot: Post -> real): (r: seq<Post>)
    ensures forall p :: p in r ==> p.status == "active"
    ensures multiset(r) == multiset(Filter(items, IsActive))
    ensures forall p :: p in items && p.status == "active" ==> p in r
    ensures var mode := OrElse(sort, "new");
      mode != "hot" && mode != "top" && mode != "controversial" ==> r == Filter(items, IsActive)
    ensures OrElse(sort, "new") == "top" ==> SortedDesc(r, ScoreKey)
    ensures OrElse(sort, "new") == "controversial" ==> SortedDesc(r, ControversyKey)
    ensures OrElse(sort, "new") == "hot" ==> SortedDesc(r, hot)
  {
    var active := Filter(items, IsActive);
    var mode := OrElse(sort, "new");
    var r := if mode == "hot" then SortDesc(active, hot)
      else if mode == "top" then SortDesc(active, ScoreKey)
      else if mode == "controversial" then SortDesc(active, ControversyKey)
      else active;
    assert forall p :: p in r <==> p in active by {
      forall p ensures p in r <==> p in active {
        assert p in r <==> p in multiset(r);
        assert p in active <==> p in multiset(active);
      }
    }
    r
  }

  // ---------------------------------------------------------------- trending

  /** The trending windows in milliseconds; any other timeframe has none. */
  function TrendWindow(timeframe: string): (w: Option<int>)
    ensures w.Some? <==> timeframe in {"day", "week", "month"}
    ensures w.Some? ==> w.value == (if timeframe == "day" then 1 else if timeframe == "week" then 7 else 30) * 24 * 3600000
  {
    if timeframe == "day" then Some(86400000)
    else if timeframe == "week" then Some(604800000)
    else if timeframe == "month" then Some(2592000000)
    else None
  }

  /** `now - createdAt < timeframes[timeframe]`, false when the window is undefined. */
  predicate InWindow(p: Post, timeframe: string, now: int) {
    var w := TrendWindow(timeframe);
    w.Some? && now - p.createdAt < w.value
  }

  /** The active posts of the scan inside the window. */
  function RecentPosts(scan: seq<Post>, timeframe: string, now: int): (r: seq<Post>)
    ensures forall p :: p in r <==> p in scan && p.status == "active" && InWindow(p, timeframe, now)
  {
    Filter(scan, (p: Post) => IsActive(p) && InWindow(p, timeframe, now))
  }

  /**
   * GET /posts/trending: the active posts of the scan inside the window with
   * the highest trend scores, best first.
   */
  function TrendingPosts(scan: seq<Post>, timeframe: Option<string>, now: int, limit: int,
                         trendScore: Post -> real): (r: seq<Post>)
    ensures forall i :: 0 <= i < |r| ==>
      r[i] in scan && r[i].status == "active" && InWindow(r[i], OrElse(timeframe, "day"), now)
    ensures TrendWindow(OrElse(timeframe, "day")).None? ==> r == []
    ensures SortedDesc(r, trendScore)
    ensures 0 <= limit <= |RecentPosts(scan, OrElse(timeframe, "day"), now)| ==> |r| == limit
    ensures 0 <= limit ==> |r| <= limit
    ensures forall p :: p in scan && p.status == "active" && InWindow(p, OrElse(timeframe, "day"), now) && p !in r ==>
      forall i :: 0 <= i < |r| ==> trendScore(p) <= trendScore(r[i])
    ensures 0 <= limit && |r| < limit ==>
      forall p :: p in scan && p.status == "active" && InWindow(p, OrElse(timeframe, "day"), now) ==> p in r
  {
    var tf := OrElse(timeframe, "day");
    var recent := RecentPosts(scan, tf, now);
    TopByAll(recent, trendScore, limit);
    TopBy(recent, trendScore, limit)
  }

  // ---------------------------------------------------------------- dispatch

  datatype Request = Request(httpMethod: string, path: string, name: Option<string>,
                             postId: Option<string>, username: Option<string>)

  datatype Route =
    | Preflight | CreatePostRoute | EditPostRoute | DeletePostRoute | ListPostsRoute
    | GetPostRoute | SearchPostsRoute | TrendingPostsRoute | SavePostRoute | UnsavePostRoute
    | SavedPostsRoute | HidePostRoute | UnhidePostRoute | AwardPostRoute | SetFlairRoute
    | CrosspostRoute | GetMediaRoute | MediaViewRoute | UpdateMediaRoute | BadRequest

  /** The handler's if-chain, first match wins. */
  function RouteOf(r: Request): Route {
    var m, path, id := r.httpMethod, r.path, Truthy(r.postId);
    if m == "OPTIONS" then Preflight
    else if m == "POST" && Truthy(r.name) && !Includes(path, "/search") then CreatePostRoute
    else if m == "PUT" && id then EditPostRoute
    else if m == "DELETE" && id then DeletePostRoute
    else if m == "GET" && Truthy(r.name) && !Includes(path, "/search") then ListPostsRoute
    else if m == "GET" && Includes(path, "/posts/") && id && !Includes(path, "/vote") then GetPostRoute
    else if m == "GET" && Includes(path, "/posts/search") then SearchPostsRoute
    else if m == "GET" && Includes(path, "/posts/trending") then TrendingPostsRoute
    else if m == "POST" && id && Includes(path, "/save") then SavePostRoute
    else if m == "DELETE" && id && Includes(path, "/save") then UnsavePostRoute
    else if m == "GET" && Truthy(r.username) && Includes(path, "/saved") then SavedPostsRoute
    else if m == "POST" && id && Includes(path, "/hide") && !Includes(path, "/unhide") then HidePostRoute
    else if m == "POST" && id && Includes(path, "/unhide") then UnhidePostRoute
    else if m == "POST" && id && Includes(path, "/award") then AwardPostRoute
    else if m == "PUT" && id && Includes(path, "/flair") then SetFlairRoute
    else if m == "POST" && id && Includes(path, "/crosspost") then CrosspostRoute
    else if m == "GET" && id && Includes(path, "/media") then GetMediaRoute
    else if m == "POST" && id && Includes(path, "/media/view") then MediaViewRoute
    else if m == "PUT" && id && Includes(path, "/media") then UpdateMediaRoute
    else BadRequest
  }

  /** Every PUT with a postId is an edit: the flair and media PUT branches are dead. */
  lemma PutIsAlwaysEdit(r: Request)
    requires r.httpMethod == "PUT" && Truthy(r.postId)
    ensures RouteOf(r) == EditPostRoute
  {
  }

  lemma DeadPostRoutes(r: Request)
    ensures RouteOf(r) !in {SetFlairRoute, UpdateMediaRoute, UnsavePostRoute}
  {
  }

  /** A GET /posts/{postId}/... without "/vote" is answered by the single-post branch. */
  lemma MediaGetShadowed(r: Request)
    requires r.httpMethod == "GET" && Truthy(r.postId)
    requires Includes(r.path, "/posts/") && !Includes(r.path, "/vote")
    requires !Truthy(r.name)
    ensures RouteOf(r) == GetPostRoute
  {
  }

  /** DELETE /posts/{postId}/save soft-deletes the post instead of unsaving it. */
  lemma UnsaveDeletesPost(postId: string)
    requires postId != ""
    ensures RouteOf(Request("DELETE", "/posts/" + postId + "/save", None, Some(postId), None)) == DeletePostRoute
  {
  }

  /**
   * The dispatch with each sub-resource branch placed before the generic
   * edit, delete and single-post branches of the same method.
   */
  function RouteOfCorrected(r: Request): Route {
    var m, path, id := r.httpMethod, r.path, Truthy(r.postId);
    if m == "OPTIONS" then Preflight
    else if m == "POST" && Truthy(r.name) && !Includes(path, "/search") then CreatePostRoute
    else if m == "PUT" && id && Includes(path, "/flair") then SetFlairRoute
    else if m == "PUT" && id && Includes(path, "/media") then UpdateMediaRoute
    else if m == "PUT" && id then EditPostRoute
    else if m == "DELETE" && id && Includes(path, "/save") then UnsavePostRoute
    else if m == "DELETE" && id then DeletePostRoute
    else if m == "GET" && Truthy(r.name) && !Includes(path, "/search") then ListPostsRoute
    else if m == "GET" && id && Includes(path, "/media") then GetMediaRoute
    else if m == "GET" && Includes(path, "/posts/") && id && !Includes(path, "/vote") then GetPostRoute
    else if m == "GET" && Includes(path, "/posts/search") then SearchPostsRoute
    else if m == "GET" && Includes(path, "/posts/trending") then TrendingPostsRoute
    else if m == "POST" && id && Includes(path, "/save") then SavePostRoute
    else if m == "GET" && Truthy(r.username) && Includes(path, "/saved") then SavedPostsRoute
    else if m == "POST" && id && Includes(path, "/hide") && !Includes(path, "/unhide") then HidePostRoute
    else if m == "POST" && id && Includes(path, "/unhide") then UnhidePostRoute
    else if m == "POST" && id && Includes(path, "/award") then AwardPostRoute
    else if m == "POST" && id && Includes(path, "/crosspost") then CrosspostRoute
    else if m == "POST" && id && Includes(path, "/media/view") then MediaViewRoute
    else BadRequest
  }

  /** Under the corrected order each sub-resource reaches its own branch. */
  lemma CorrectedRoutesReachable(r: Request)
    requires Truthy(r.postId) && !Truthy(r.name)
    ensures r.httpMethod == "DELETE" && Includes(r.path, "/save") ==> RouteOfCorrected(r) == UnsavePostRoute
    ensures r.httpMethod == "PUT" && Includes(r.path, "/flair") ==> RouteOfCorrected(r) == SetFlairRoute
    ensures r.httpMethod == "PUT" && Includes(r.path, "/media") && !Includes(r.path, "/flair") ==>
      RouteOfCorrected(r) == UpdateMediaRoute
    ensures r.httpMethod == "GET" && Includes(r.path, "/media") ==> RouteOfCorrected(r) == GetMediaRoute
    ensures r.httpMethod == "DELETE" && !Includes(r.path, "/save") ==> RouteOfCorrected(r) == DeletePostRoute
    ensures r.httpMethod == "PUT" && !Includes(r.path, "/flair") && !Includes(r.path, "/media") ==>
      RouteOfCorrected(r) == EditPostRoute
  {
  }

  /** Requests that name no sub-resource are routed as before. */
  lemma CorrectedAgreesOnPlainRequests(r: Request)
    requires !Includes(r.path, "/save") && !Includes(r.path, "/flair") && !Includes(r.path, "/media")
    ensures RouteOfCorrected(r) == RouteOf(r)
  {
  }
}
