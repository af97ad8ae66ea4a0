// AI handler: auto-tag selection, similarity recommendations, community
// discovery, the personalised feed and its interest profile, trending topics
// and the rule-based spam check.

module Ai {
  import opened Common
  import Posts

  function AgeHours(createdAt: int, now: int): real {
    (now - createdAt) as real / 3600000.0
  }

  // ----------------------------------------------------------------- auto-tag

  datatype KeyPhrase = KeyPhrase(text: string, score: real)
  datatype Entity = Entity(text: string, kind: string, score: real)

  /** No ASCII capital letter occurs in `t`. */
  predicate LowerCased(t: string) {
    forall i :: 0 <= i < |t| ==> !('A' <= t[i] <= 'Z')
  }

  lemma ToLowerIsLower(t: string)
    ensures LowerCased(ToLower(t))
  {
  }

  function LowerAll(ts: seq<string>): (r: seq<string>)
    ensures |r| == |ts|
    ensures forall i :: 0 <= i < |r| ==> r[i] == ToLower(ts[i]) && LowerCased(r[i])
  {
    seq(|ts|, i requires 0 <= i < |ts| => ToLower(ts[i]))
  }

  predicate Confident(kp: KeyPhrase) { kp.score > 0.8 }

  predicate TaggableEntity(e: Entity) {
    e.kind in {"PERSON", "LOCATION", "ORGANIZATION", "EVENT"} && e.score > 0.8
  }

  function PhraseTexts(kps: seq<KeyPhrase>): seq<string> {
    var f := Filter(kps, Confident);
    seq(|f|, i requires 0 <= i < |f| => f[i].text)
  }

  function EntityTexts(es: seq<Entity>): seq<string> {
    var f := Filter(es, TaggableEntity);
    seq(|f|, i requires 0 <= i < |f| => f[i].text)
  }

  /** The first five confident key phrases, lower-cased. */
  function PhraseTags(kps: seq<KeyPhrase>): (r: seq<string>)
    ensures |r| <= 5
    ensures forall i :: 0 <= i < |r| ==> LowerCased(r[i])
    ensures forall i :: 0 <= i < |r| ==>
      exists kp :: kp in kps && Confident(kp) && ToLower(kp.text) == r[i]
  {
    var texts := PhraseTexts(kps);
    var f := Filter(kps, Confident);
    assert forall i :: 0 <= i < |texts| ==> f[i] in kps && Confident(f[i]) && texts[i] == f[i].text;
    Take(LowerAll(texts), 5)
  }

  /** The first three confident person, location, organisation or event entities, lower-cased. */
  function EntityTags(es: seq<Entity>): (r: seq<string>)
    ensures |r| <= 3
    ensures forall i :: 0 <= i < |r| ==> LowerCased(r[i])
    ensures forall i :: 0 <= i < |r| ==>
      exists e :: e in es && TaggableEntity(e) && ToLower(e.text) == r[i]
  {
    var texts := EntityTexts(es);
    var f := Filter(es, TaggableEntity);
    assert forall i :: 0 <= i < |texts| ==> f[i] in es && TaggableEntity(f[i]) && texts[i] == f[i].text;
    Take(LowerAll(texts), 3)
  }

  /** `[...new Set([...phrases, ...entities])].slice(0, 8)`. */
  function SuggestedTags(kps: seq<KeyPhrase>, es: seq<Entity>): (r: seq<string>)
    ensures Distinct(r)
    ensures |r| <= 8
    ensures forall t :: t in r <==> t in PhraseTags(kps) || t in EntityTags(es)
    ensures forall i :: 0 <= i < |r| ==> LowerCased(r[i])
    ensures |PhraseTags(kps)| > 0 ==> |r| > 0 && r[0] == PhraseTags(kps)[0]
  {
    var phrases, entities := PhraseTags(kps), EntityTags(es);
    UnionTags(phrases, entities);
    Take(Dedup(phrases + entities), 8)
  }

  /** The deduplicated union of at most eight lower-case tags, the first tag first. */
  lemma UnionTags(phrases: seq<string>, entities: seq<string>)
    requires |phrases| <= 5 && |entities| <= 3
    requires forall i :: 0 <= i < |phrases| ==> LowerCased(phrases[i])
    requires forall i :: 0 <= i < |entities| ==> LowerCased(entities[i])
    ensures Take(Dedup(phrases + entities), 8) == Dedup(phrases + entities)
    ensures forall i :: 0 <= i < |Dedup(phrases + entities)| ==> LowerCased(Dedup(phrases + entities)[i])
    ensures |phrases| > 0 ==> |Dedup(phrases + entities)| > 0 && Dedup(phrases + entities)[0] == phrases[0]
  {
    var all := phrases + entities;
    var d := Dedup(all);
    if |phrases| > 0 {
      DedupHead(all);
    }
    forall i | 0 <= i < |d| ensures LowerCased(d[i]) {
      assert d[i] in all;
    }
  }

  /** Deduplication keeps the first element first. */
  lemma DedupHead(xs: seq<string>)
    requires |xs| > 0
    ensures |Dedup(xs)| > 0 && Dedup(xs)[0] == xs[0]
    decreases |xs|
  {
    if |xs| > 1 {
      DedupHead(xs[..|xs| - 1]);
    }
  }

  /**
   * The reply of an auto-tag request, the post store after it, and the ids of
   * the posts whose `autoTagged` flag is set.
   */
  datatype AutoTagOutcome = AutoTagOutcome(reply: Reply<seq<string>>, store: Posts.Store, autoTagged: set<string>)

  /**
   * POST /posts/{postId}/auto-tag: 404 without the post, 500 when the text
   * analysis fails (`None`), otherwise the suggested tags, which replace the
   * post's tags while the post is flagged as auto-tagged.
   */
  function AutoTag(s: Posts.Store, autoTagged: set<string>, postId: string,
                   analysis: Option<(seq<KeyPhrase>, seq<Entity>)>): (o: AutoTagOutcome)
    ensures postId !in s.posts ==> o == AutoTagOutcome(Failure(404, "post not found"), s, autoTagged)
    ensures postId in s.posts && analysis.None? ==>
      o == AutoTagOutcome(Failure(500, "AI analysis failed"), s, autoTagged)
    ensures postId in s.posts && analysis.Some? ==>
      var tags := SuggestedTags(analysis.value.0, analysis.value.1);
      o.reply == Success(tags)
      && o.store.posts.Keys == s.posts.Keys && o.store.postCounts == s.postCounts
      && o.store.posts[postId].tags == tags
      && o.store.posts[postId].(tags := s.posts[postId].tags) == s.posts[postId]
      && (forall k :: k in s.posts && k != postId ==> o.store.posts[k] == s.posts[k])
      && o.autoTagged == autoTagged + {postId}
  {
    if postId !in s.posts then AutoTagOutcome(Failure(404, "post not found"), s, autoTagged)
    else if analysis.None? then AutoTagOutcome(Failure(500, "AI analysis failed"), s, autoTagged)
    else
      var tags := SuggestedTags(analysis.value.0, analysis.value.1);
      var p := s.posts[postId];
      AutoTagOutcome(Success(tags), s.(posts := s.posts[postId := p.(tags := tags)]), autoTagged + {postId})
  }

  // ----------------------------------------------------- similarity ranking

  datatype Vote = Vote(postId: string, voteType: string)

  /** A post with the score the ranking gave it. */
  datatype RankedPost = RankedPost(post: Posts.Post, score: real)

  function RankKey(rp: RankedPost): real { rp.score }

  predicate IsUpvote(v: Vote) { v.voteType == "up" }

  function UpvotedIds(votes: seq<Vote>): (r: seq<string>)
    ensures forall id :: id in r <==> exists v :: v in votes && v.voteType == "up" && v.postId == id
  {
    var ups := Filter(votes, IsUpvote);
    assert forall i :: 0 <= i < |ups| ==> ups[i] in votes && IsUpvote(ups[i]);
    var r := seq(|ups|, i requires 0 <= i < |ups| => ups[i].postId);
    assert forall v :: v in votes && IsUpvote(v) ==> v.postId in r by {
      forall v | v in votes && IsUpvote(v) ensures v.postId in r {
        var i :| 0 <= i < |ups| && ups[i] == v;
        assert r[i] == v.postId;
      }
    }
    r
  }

  /** The posts of the first ten upvoted ids that the store returned. */
  function FetchedPosts(ids: seq<string>, lookup: string -> Option<Posts.Post>): seq<Posts.Post>
    decreases |ids|
  {
    if ids == [] then []
    else
      var rest := FetchedPosts(ids[..|ids| - 1], lookup);
      var p := lookup(ids[|ids| - 1]);
      if p.Some? then rest + [p.value] else rest
  }

  function AllTagsOf(ps: seq<Posts.Post>): seq<string>
    decreases |ps|
  {
    if ps == [] then [] else AllTagsOf(ps[..|ps| - 1]) + ps[|ps| - 1].tags
  }

  function CommunitiesOf(ps: seq<Posts.Post>): seq<string> {
    seq(|ps|, i requires 0 <= i < |ps| => ps[i].community)
  }

  function CommonTagCount(p: Posts.Post, userTags: seq<string>): (r: nat)
    ensures r <= |p.tags|
  {
    |Filter(p.tags, (t: string) => t in userTags)|
  }

  /**
   * Similarity: 3 per shared tag, 5 for a preferred community, 2 when under
   * a day old, plus the opaque `Math.log(score + 1)` term.
   */
  function SimilarityScore(p: Posts.Post, userTags: seq<string>, userCommunities: seq<string>,
                           now: int, logScore: int -> real): (r: real)
    ensures r - logScore(p.score + 1) <= 3.0 * |p.tags| as real + 7.0
    ensures r - logScore(p.score + 1) >= 3.0 * CommonTagCount(p, userTags) as real
  {
    3.0 * CommonTagCount(p, userTags) as real
    + (if p.community in userCommunities then 5.0 else 0.0)
    + (if AgeHours(p.createdAt, now) < 24.0 then 2.0 else 0.0)
    + logScore(p.score + 1)
  }

  datatype Recommendation =
    | TrendingForNewUser(trending: seq<Posts.Post>)
    | Personalized(ranked: seq<RankedPost>, basedOnTags: seq<string>, basedOnCommunities: seq<string>)

  function ScoreKey(p: Posts.Post): real { p.score as real }

  /** A post paired with its similarity score. */
  function Scorer(userTags: seq<string>, userCommunities: seq<string>, now: int, logScore: int -> real)
    : Posts.Post -> RankedPost
  {
    (p: Posts.Post) => RankedPost(p, SimilarityScore(p, userTags, userCommunities, now, logScore))
  }

  function Unseen(upvoted: seq<string>): Posts.Post -> bool {
    (p: Posts.Post) => p.postId !in upvoted
  }

  /** The candidates the user has not up-voted, each paired with its similarity score. */
  function ScoreUnseen(candidates: seq<Posts.Post>, upvoted: seq<string>, userTags: seq<string>,
                       userCommunities: seq<string>, now: int, logScore: int -> real): (r: seq<RankedPost>)
    ensures forall q :: q in r ==>
      q.post.postId !in upvoted && q.post in candidates
      && q.score == SimilarityScore(q.post, userTags, userCommunities, now, logScore)
    ensures forall p :: p in candidates && p.postId !in upvoted ==>
      RankedPost(p, SimilarityScore(p, userTags, userCommunities, now, logScore)) in r
  {
    var f := Scorer(userTags, userCommunities, now, logScore);
    var unseen := Filter(candidates, Unseen(upvoted));
    var r := MapSeq(unseen, f);
    forall p | p in unseen ensures f(p) in r {
      MapHas(unseen, f, p);
    }
    forall q | q in r
      ensures q.post in unseen && q.score == SimilarityScore(q.post, userTags, userCommunities, now, logScore)
    {
      var i :| 0 <= i < |r| && r[i] == q;
      assert q == f(unseen[i]);
    }
    r
  }

  /** Some ranked entry holds `p`. */
  predicate Kept(p: Posts.Post, r: seq<RankedPost>) {
    exists i :: 0 <= i < |r| && r[i].post == p
  }

  /**
   * `r` is the top of the unseen candidates by similarity, best first: each
   * entry is an unseen candidate with its score, a candidate left out scores
   * no higher than any kept one, and fewer than `limit` kept means none was
   * left out.
   */
  predicate TopSimilar(r: seq<RankedPost>, candidates: seq<Posts.Post>, upvoted: seq<string>,
                       userTags: seq<string>, userCommunities: seq<string>, now: int, limit: int,
                       logScore: int -> real)
  {
    (forall i :: 0 <= i < |r| ==> r[i].post.postId !in upvoted && r[i].post in candidates)
    && (forall i :: 0 <= i < |r| ==>
          r[i].score == SimilarityScore(r[i].post, userTags, userCommunities, now, logScore))
    && SortedDesc(r, RankKey)
    && (0 <= limit ==> |r| <= limit)
    && (forall p :: p in candidates && p.postId !in upvoted && !Kept(p, r) ==>
          forall i :: 0 <= i < |r| ==> SimilarityScore(p, userTags, userCommunities, now, logScore) <= r[i].score)
    && (0 <= limit && |r| < limit ==> forall p :: p in candidates && p.postId !in upvoted ==> Kept(p, r))
  }

  /** The unseen candidates with the highest similarity scores, best first. */
  function RankSimilar(candidates: seq<Posts.Post>, upvoted: seq<string>, userTags: seq<string>,
                       userCommunities: seq<string>, now: int, limit: int,
                       logScore: int -> real): (r: seq<RankedPost>)
    ensures TopSimilar(r, candidates, upvoted, userTags, userCommunities, now, limit, logScore)
  {
    var pool := ScoreUnseen(candidates, upvoted, userTags, userCommunities, now, logScore);
    var r := TopBy(pool, RankKey, limit);
    forall p | p in candidates && p.postId !in upvoted
      ensures !Kept(p, r) ==>
        forall i :: 0 <= i < |r| ==> SimilarityScore(p, userTags, userCommunities, now, logScore) <= r[i].score
      ensures 0 <= limit && |r| < limit ==> Kept(p, r)
    {
      KeptOrOutranked(pool, RankKey, limit, RankedPost(p, SimilarityScore(p, userTags, userCommunities, now, logScore)));
    }
    r
  }

  /** One scored post is either kept, or outranked by every kept entry. */
  lemma KeptOrOutranked(pool: seq<RankedPost>, key: RankedPost -> real, limit: int, rp: RankedPost)
    requires rp in pool
    ensures var r := TopBy(pool, key, limit);
      (!Kept(rp.post, r) ==> forall i :: 0 <= i < |r| ==> key(rp) <= key(r[i]))
      && (0 <= limit && |r| < limit ==> Kept(rp.post, r))
  {
    var r := TopBy(pool, key, limit);
    TopByMember(pool, key, limit, rp);
    if rp in r {
      var i :| 0 <= i < |r| && r[i] == rp;
      assert r[i].post == rp.post;
    }
  }

  /**
   * `r` is the top of the scan's active posts by score, best first: a post
   * left out scores no higher than any kept one, and fewer than `limit` kept
   * means none was left out.
   */
  predicate TopActive(r: seq<Posts.Post>, scan: seq<Posts.Post>, limit: int) {
    SortedDesc(r, ScoreKey)
    && (0 <= limit ==> |r| <= limit)
    && (forall i :: 0 <= i < |r| ==> r[i] in scan && r[i].status == "active")
    && (forall p :: p in scan && p.status == "active" && p !in r ==>
          forall i :: 0 <= i < |r| ==> p.score <= r[i].score)
    && (0 <= limit && |r| < limit ==> forall p :: p in scan && p.status == "active" ==> p in r)
  }

  /** The tags of the first ten up-voted posts the store returned, each once. */
  function ProfileTags(upvoted: seq<string>, lookup: string -> Option<Posts.Post>): seq<string> {
    Dedup(AllTagsOf(FetchedPosts(Take(upvoted, 10), lookup)))
  }

  /** The communities of the first ten up-voted posts the store returned, each once. */
  function ProfileCommunities(upvoted: seq<string>, lookup: string -> Option<Posts.Post>): seq<string> {
    Dedup(CommunitiesOf(FetchedPosts(Take(upvoted, 10), lookup)))
  }

  /**
   * GET /recommendations: trending posts for a user without upvotes,
   * otherwise unseen active posts ranked by similarity to the upvoted ones.
   */
  function Recommend(userId: Option<string>, votes: seq<Vote>, lookup: string -> Option<Posts.Post>,
                     scan: seq<Posts.Post>, now: int, limit: int, logScore: int -> real)
    : (r: Reply<Recommendation>)
    ensures !Truthy(userId) ==> r == Failure(400, "userId required")
    ensures Truthy(userId) ==> r.Success?
    ensures Truthy(userId) && UpvotedIds(votes) == [] ==>
      r.value.TrendingForNewUser? && TopActive(r.value.trending, scan, limit)
    ensures Truthy(userId) && UpvotedIds(votes) != [] ==>
      var upvoted := UpvotedIds(votes);
      r.value.Personalized? && |r.value.basedOnTags| <= 5
      && (forall i :: 0 <= i < |r.value.ranked| ==> r.value.ranked[i].post.status == "active")
      && TopSimilar(r.value.ranked, Filter(scan, Posts.IsActive), upvoted,
                    ProfileTags(upvoted, lookup), ProfileCommunities(upvoted, lookup), now, limit, logScore)
  {
    if !Truthy(userId) then Failure(400, "userId required")
    else
      var upvoted := UpvotedIds(votes);
      if upvoted == [] then Success(TrendingForNewUser(TrendingActive(scan, limit)))
      else Success(PersonalizedFor(upvoted, lookup, scan, now, limit, logScore))
  }

  /** The new-user branch: the active posts with the highest scores, at most `limit`. */
  function TrendingActive(scan: seq<Posts.Post>, limit: int): (r: seq<Posts.Post>)
    ensures TopActive(r, scan, limit)
  {
    var pool := Filter(scan, Posts.IsActive);
    var r := TopBy(pool, ScoreKey, limit);
    forall p | p in pool
      ensures p !in r ==> forall i :: 0 <= i < |r| ==> ScoreKey(p) <= ScoreKey(r[i])
      ensures 0 <= limit && |r| < limit ==> p in r
    {
      TopByMember(pool, ScoreKey, limit, p);
    }
    r
  }

  /**
   * The returning-user branch: tags and communities of up to ten up-voted
   * posts, and the unseen active posts ranked against them.
   */
  function PersonalizedFor(upvoted: seq<string>, lookup: string -> Option<Posts.Post>,
                           scan: seq<Posts.Post>, now: int, limit: int, logScore: int -> real)
    : (r: Recommendation)
    ensures r.Personalized?
    ensures |r.basedOnTags| <= 5
    ensures r.basedOnTags == Take(ProfileTags(upvoted, lookup), 5)
    ensures r.basedOnCommunities == ProfileCommunities(upvoted, lookup)
    ensures forall i :: 0 <= i < |r.ranked| ==> r.ranked[i].post.status == "active"
    ensures TopSimilar(r.ranked, Filter(scan, Posts.IsActive), upvoted,
                       ProfileTags(upvoted, lookup), ProfileCommunities(upvoted, lookup), now, limit, logScore)
  {
    var userTags := ProfileTags(upvoted, lookup);
    var userCommunities := ProfileCommunities(upvoted, lookup);
    var ranked := RankSimilar(Filter(scan, Posts.IsActive), upvoted, userTags, userCommunities, now, limit, logScore);
    Personalized(ranked, Take(userTags, 5), userCommunities)
  }

  // ------------------------------------------------------------- discovery

  datatype CommunityInfo = CommunityInfo(name: string, postCount: int, memberCount: int, createdAt: int)
  datatype Discovered = Discovered(community: CommunityInfo, score: int)

  const MonthMs: int := 30 * 24 * 3600000

  /** Activity plus a 10-point boost for communities younger than a 30-day month. */
  function DiscoverScore(c: CommunityInfo, now: int): (r: int)
    ensures r == 2 * c.postCount + c.memberCount + (if now - c.createdAt < MonthMs then 10 else 0)
  {
    var ageMonths := (now - c.createdAt) as real / (30.0 * 24.0 * 3600000.0);
    c.postCount * 2 + c.memberCount + (if ageMonths < 1.0 then 10 else 0)
  }

  function DiscoverKey(d: Discovered): real { d.score as real }

  /** The communities a user is counted as belonging to: none without a userId. */
  function Joined(userId: Option<string>, memberships: seq<string>): seq<string> {
    if Truthy(userId) then memberships else []
  }

  /** Some entry of the ranking is `c`. */
  predicate Listed(c: CommunityInfo, r: seq<Discovered>) {
    exists i :: 0 <= i < |r| && r[i].community == c
  }

  /**
   * GET /communities/discover: the unjoined communities with the highest
   * discovery scores, best first.
   */
  function Discover(userId: Option<string>, memberships: seq<string>, all: seq<CommunityInfo>,
                    now: int, limit: int): (r: seq<Discovered>)
    ensures forall i :: 0 <= i < |r| ==>
      r[i].community in all && r[i].community.name !in Joined(userId, memberships)
      && r[i].score == DiscoverScore(r[i].community, now)
    ensures SortedDesc(r, DiscoverKey)
    ensures 0 <= limit ==> |r| <= limit
    ensures !Truthy(userId) && |all| <= limit ==> |r| == |all|
    ensures forall c :: c in all && c.name !in Joined(userId, memberships) && !Listed(c, r) ==>
      forall i :: 0 <= i < |r| ==> DiscoverScore(c, now) <= r[i].score
    ensures 0 <= limit && |r| < limit ==>
      forall c :: c in all && c.name !in Joined(userId, memberships) ==> Listed(c, r)
  {
    var pool := ScoreOpen(Joined(userId, memberships), all, now);
    var r := TopBy(pool, DiscoverKey, limit);
    forall c | c in all && c.name !in Joined(userId, memberships)
      ensures !Listed(c, r) ==> forall i :: 0 <= i < |r| ==> DiscoverScore(c, now) <= r[i].score
      ensures 0 <= limit && |r| < limit ==> Listed(c, r)
    {
      ListedOrOutranked(pool, limit, Discovered(c, DiscoverScore(c, now)));
    }
    r
  }

  /** One scored community is either listed, or outranked by every listed entry. */
  lemma ListedOrOutranked(pool: seq<Discovered>, limit: int, d: Discovered)
    requires d in pool
    ensures var r := TopBy(pool, DiscoverKey, limit);
      (!Listed(d.community, r) ==> forall i :: 0 <= i < |r| ==> d.score <= r[i].score)
      && (0 <= limit && |r| < limit ==> Listed(d.community, r))
  {
    var r := TopBy(pool, DiscoverKey, limit);
    TopByMember(pool, DiscoverKey, limit, d);
    if d in r {
      var i :| 0 <= i < |r| && r[i] == d;
      assert r[i].community == d.community;
    }
  }

  function Scored(now: int): CommunityInfo -> Discovered {
    (c: CommunityInfo) => Discovered(c, DiscoverScore(c, now))
  }

  function NotIn(joined: seq<string>): CommunityInfo -> bool {
    (c: CommunityInfo) => c.name !in joined
  }

  /** The communities not joined, each with its discovery score: every one of them, and only those. */
  function ScoreOpen(joined: seq<string>, all: seq<CommunityInfo>, now: int): (r: seq<Discovered>)
    ensures forall d :: d in r ==>
      d.community in all && d.community.name !in joined && d.score == DiscoverScore(d.community, now)
    ensures forall c :: c in all && c.name !in joined ==> Discovered(c, DiscoverScore(c, now)) in r
    ensures joined == [] ==> |r| == |all|
  {
    var f := Scored(now);
    var open := Filter(all, NotIn(joined));
    var r := MapSeq(open, f);
    forall c | c in open ensures f(c) in r {
      MapHas(open, f, c);
    }
    forall d | d in r ensures d.community in open && d.score == DiscoverScore(d.community, now) {
      var i :| 0 <= i < |r| && r[i] == d;
      assert d == f(open[i]);
    }
    r
  }

  /**
   * A GET on a path that contains `/recommendations` without being exactly
   * it (the exact path goes to the post recommender; see
   * CommunityRecommendationsShadowed): unjoined communities by member count
   * when `type` is `communities`.
   */
  function RecommendCommunities(userId: Option<string>, kind: Option<string>, current: seq<string>,
                                all: seq<CommunityInfo>, limit: int): (r: Reply<seq<CommunityInfo>>)
    ensures !Truthy(userId) ==> r == Failure(400, "userId required")
    ensures Truthy(userId) && OrElse(kind, "posts") != "communities" ==> r == Success([])
    ensures r.Success? ==> forall i :: 0 <= i < |r.value| ==> r.value[i] in all && r.value[i].name !in current
    ensures r.Success? ==> SortedDesc(r.value, MembersKey)
    ensures r.Success? && 0 <= limit ==> |r.value| <= limit
    ensures r.Success? ==> forall c :: c in all && c.name !in current && c !in r.value ==>
      forall i :: 0 <= i < |r.value| ==> c.memberCount <= r.value[i].memberCount
    ensures r.Success? && OrElse(kind, "posts") == "communities" && 0 <= limit && |r.value| < limit ==>
      forall c :: c in all && c.name !in current ==> c in r.value
  {
    if !Truthy(userId) then Failure(400, "userId required")
    else if OrElse(kind, "posts") != "communities" then Success([])
    else
      var open := Filter(all, NotIn(current));
      MembersTop(open, limit);
      Success(TopBy(open, MembersKey, limit))
  }

  /** A community left out has no more members than any listed one; a short list leaves none out. */
  lemma MembersTop(open: seq<CommunityInfo>, limit: int)
    ensures var top := TopBy(open, MembersKey, limit);
      (forall c :: c in open && c !in top ==> forall i :: 0 <= i < |top| ==> c.memberCount <= top[i].memberCount)
      && (0 <= limit && |top| < limit ==> forall c :: c in open ==> c in top)
  {
    var top := TopBy(open, MembersKey, limit);
    forall c | c in open
      ensures c !in top ==> forall i :: 0 <= i < |top| ==> MembersKey(c) <= MembersKey(top[i])
      ensures 0 <= limit && |top| < limit ==> c in top
    {
      TopByMember(open, MembersKey, limit, c);
    }
  }

  function MembersKey(c: CommunityInfo): real { c.memberCount as real }

  // ---------------------------------------------------- membership lookups

  /**
   * A membership item as POST /communities/{name}/join writes it:
   * PK `COMM#{name}`, SK `MEMBER#{userId}`, GSI1PK `USER#{userId}`,
   * GSI1SK `JOINED#{joinedAt}`.
   */
  datatype MemberItem = MemberItem(pk: string, sk: string, gsi1pk: string, gsi1sk: string, communityName: string)

  function JoinItem(name: string, userId: string, joinedAt: string): MemberItem {
    MemberItem("COMM#" + name, "MEMBER#" + userId, "USER#" + userId, "JOINED#" + joinedAt, name)
  }

  function NameOf(it: MemberItem): string { it.communityName }

  /**
   * The joined communities as the personalised feed and the community
   * recommendations look them up: `PK = USER#{userId}` and SK beginning
   * with `MEMBER#`.
   */
  function MembershipsByPk(items: seq<MemberItem>, userId: string): seq<string> {
    MapSeq(Filter(items, (it: MemberItem) => it.pk == "USER#" + userId && StartsWith(it.sk, "MEMBER#")), NameOf)
  }

  /**
   * The joined communities as discovery looks them up: GSI1PK `USER#{userId}`
   * and GSI1SK beginning with `JOINED#`.
   */
  function MembershipsByGsi(items: seq<MemberItem>, userId: string): seq<string> {
    MapSeq(Filter(items, (it: MemberItem) => it.gsi1pk == "USER#" + userId && StartsWith(it.gsi1sk, "JOINED#")),
           NameOf)
  }

  /**
   * As written: membership items live under `COMM#` keys, so the lookup by
   * `USER#` partition finds none, and the community term of the personalised
   * score is 0 for every post.
   */
  lemma JoinedLookupFindsNothing(items: seq<MemberItem>, userId: string, p: Posts.Post, profile: map<string, nat>)
    requires forall i :: 0 <= i < |items| ==> StartsWith(items[i].pk, "COMM#")
    ensures MembershipsByPk(items, userId) == []
    ensures CommunityTerm(p, MembershipsByPk(items, userId), profile) == 0.0
  {
    var key := "USER#" + userId;
    forall i | 0 <= i < |items|
      ensures !(items[i].pk == key && StartsWith(items[i].sk, "MEMBER#"))
    {
      assert items[i].pk[0] == 'C' && key[0] == 'U';
    }
    FilterNone(items, (it: MemberItem) => it.pk == key && StartsWith(it.sk, "MEMBER#"));
  }

  /**
   * Corrected: looked up through GSI1, as discovery does, a community the
   * user joined is found, and a post there gets the joined-community term.
   */
  lemma JoinedLookupCorrected(items: seq<MemberItem>, name: string, userId: string, joinedAt: string,
                              p: Posts.Post, profile: map<string, nat>)
    requires p.community == name
    ensures name in MembershipsByGsi(items + [JoinItem(name, userId, joinedAt)], userId)
    ensures CommunityTerm(p, MembershipsByGsi(items + [JoinItem(name, userId, joinedAt)], userId), profile) >= 4.0
  {
    var all := items + [JoinItem(name, userId, joinedAt)];
    var it := JoinItem(name, userId, joinedAt);
    var test := (m: MemberItem) => m.gsi1pk == "USER#" + userId && StartsWith(m.gsi1sk, "JOINED#");
    assert StartsWith(it.gsi1sk, "JOINED#") by {
      assert it.gsi1sk[..7] == "JOINED#";
    }
    assert it in all;
    MapHas(Filter(all, test), NameOf, it);
  }

  // ------------------------------------------------------ interest profile

  /** A vote, comment or view of the user; `community` is "" when the record has none. */
  datatype Interaction = Interaction(postId: string, community: string, tags: seq<string>)

  /** The keys one interaction counts, in loop order: its community, then its tags. */
  function Mentions(it: Interaction): seq<string> {
    (if it.community != "" then [it.community] else []) + it.tags
  }

  function AllMentions(s: seq<Interaction>): seq<string>
    decreases |s|
  {
    if s == [] then [] else AllMentions(s[..|s| - 1]) + Mentions(s[|s| - 1])
  }

  /** The interest map as a function of the interaction history. */
  function InterestProfile(s: seq<Interaction>): map<string, nat> {
    BumpAll(map[], AllMentions(s))
  }

  /** One more interaction adds its community (when it has one), then its tags. */
  lemma MentionsStep(s: seq<Interaction>, i: nat)
    requires i < |s|
    ensures s[i].community != "" ==> AllMentions(s[..i + 1]) == (AllMentions(s[..i]) + [s[i].community]) + s[i].tags
    ensures s[i].community == "" ==> AllMentions(s[..i + 1]) == AllMentions(s[..i]) + s[i].tags
  {
    assert s[..i + 1][..i] == s[..i];
  }

  /** The inner loop over one interaction's tags: `interestMap[tag] = (interestMap[tag] || 0) + 1`. */
  method BumpTags(m0: map<string, nat>, ghost seen: seq<string>, tags: seq<string>) returns (m: map<string, nat>)
    requires m0 == BumpAll(map[], seen)
    ensures m == BumpAll(map[], seen + tags)
  {
    m := m0;
    var j := 0;
    assert seen + tags[..0] == seen;
    while j < |tags|
      invariant 0 <= j <= |tags|
      invariant m == BumpAll(map[], seen + tags[..j])
    {
      BumpAllSnoc(map[], seen + tags[..j], tags[j]);
      AppendPrefixSnoc(seen, tags, j);
      m := Bump(m, tags[j]);
      j := j + 1;
    }
    assert tags[..|tags|] == tags;
  }

  /** The interest-map loop: +1 for each interaction's community, +1 per tag occurrence. */
  method BuildInterestMap(interactions: seq<Interaction>) returns (m: map<string, nat>)
    ensures m == InterestProfile(interactions)
  {
    m := map[];
    var i := 0;
    while i < |interactions|
      invariant 0 <= i <= |interactions|
      invariant m == BumpAll(map[], AllMentions(interactions[..i]))
    {
      var it := interactions[i];
      ghost var pre := AllMentions(interactions[..i]);
      MentionsStep(interactions, i);
      if it.community != "" {
        BumpAllSnoc(map[], pre, it.community);
        m := Bump(m, it.community);
        m := BumpTags(m, pre + [it.community], it.tags);
      } else {
        m := BumpTags(m, pre, it.tags);
      }
      i := i + 1;
    }
    assert interactions[..|interactions|] == interactions;
  }

  /** Interactions whose community is `k`. */
  function CommunityHits(s: seq<Interaction>, k: string): nat
    decreases |s|
  {
    if s == [] then 0
    else CommunityHits(s[..|s| - 1], k) + (if k != "" && s[|s| - 1].community == k then 1 else 0)
  }

  /** Occurrences of `k` among all the interactions' tags. */
  function TagHits(s: seq<Interaction>, k: string): nat
    decreases |s|
  {
    if s == [] then 0 else TagHits(s[..|s| - 1], k) + Count(s[|s| - 1].tags, k)
  }

  lemma {:induction false} MentionCount(s: seq<Interaction>, k: string)
    ensures Count(AllMentions(s), k) == CommunityHits(s, k) + TagHits(s, k)
    decreases |s|
  {
    if s != [] {
      var it := s[|s| - 1];
      MentionCount(s[..|s| - 1], k);
      CountAppend(AllMentions(s[..|s| - 1]), Mentions(it), k);
      var head := if it.community != "" then [it.community] else [];
      CountAppend(head, it.tags, k);
      assert Count(head, k) == (if k != "" && it.community == k then 1 else 0) by {
        if it.community != "" {
          assert head[..0] == [];
        }
      }
    }
  }

  /** Each key's weight is its community hits plus its tag occurrences. */
  lemma InterestWeight(s: seq<Interaction>, k: string)
    ensures Weight(InterestProfile(s), k) == CommunityHits(s, k) + TagHits(s, k)
    ensures k in InterestProfile(s) <==> CommunityHits(s, k) + TagHits(s, k) > 0
  {
    MentionCount(s, k);
    BumpAllWeight(map[], AllMentions(s), k);
    BumpAllKeys(map[], AllMentions(s), k);
    BumpAllPositive(map[], AllMentions(s));
  }

  /** Interactions that name a community. */
  function WithCommunity(s: seq<Interaction>): nat
    decreases |s|
  {
    if s == [] then 0 else WithCommunity(s[..|s| - 1]) + (if s[|s| - 1].community != "" then 1 else 0)
  }

  /** All tag occurrences over the interactions. */
  function TagTotal(s: seq<Interaction>): nat
    decreases |s|
  {
    if s == [] then 0 else TagTotal(s[..|s| - 1]) + |s[|s| - 1].tags|
  }

  lemma {:induction false} MentionsLength(s: seq<Interaction>)
    ensures |AllMentions(s)| == WithCommunity(s) + TagTotal(s)
    decreases |s|
  {
    if s != [] {
      MentionsLength(s[..|s| - 1]);
    }
  }

  /** The total interest weight counts each community-bearing interaction and each tag once. */
  lemma InterestTotal(s: seq<Interaction>)
    ensures Total(InterestProfile(s)) == WithCommunity(s) + TagTotal(s)
  {
    TotalBumpAll(map[], AllMentions(s));
    MentionsLength(s);
  }

  lemma {:induction false} AllMentionsAppend(a: seq<Interaction>, b: seq<Interaction>)
    ensures AllMentions(a + b) == AllMentions(a) + AllMentions(b)
    decreases |b|
  {
    if b != [] {
      assert (a + b)[..|a + b| - 1] == a + b[..|b| - 1];
      AllMentionsAppend(a, b[..|b| - 1]);
    } else {
      assert a + b == a;
    }
  }

  lemma MentionsSnoc(a: seq<Interaction>, x: Interaction)
    ensures AllMentions(a + [x]) == AllMentions(a) + Mentions(x)
  {
    assert (a + [x])[..|a|] == a;
  }

  /** Taking one interaction out of the history takes its mentions out of the multiset. */
  lemma MentionsRemove(t: seq<Interaction>, i: nat)
    requires i < |t|
    ensures multiset(AllMentions(t)) == multiset(AllMentions(t[..i] + t[i + 1..])) + multiset(Mentions(t[i]))
  {
    var x, p, q := t[i], t[..i], t[i + 1..];
    SplitAround(t, i);
    AllMentionsAppend(p + [x], q);
    MentionsSnoc(p, x);
    AllMentionsAppend(p, q);
    var ap, aq, mx := AllMentions(p), AllMentions(q), Mentions(x);
    assert AllMentions(t) == ap + mx + aq;
    assert multiset(ap + mx + aq) == multiset(ap) + multiset(mx) + multiset(aq);
    assert multiset(AllMentions(p + q)) == multiset(ap) + multiset(aq);
  }

  lemma {:induction false} MentionsPermutation(s: seq<Interaction>, t: seq<Interaction>)
    requires multiset(s) == multiset(t)
    ensures multiset(AllMentions(s)) == multiset(AllMentions(t))
    decreases |s|
  {
    if s == [] {
      assert |t| == |multiset(t)| == 0;
    } else {
      var x := s[|s| - 1];
      var s' := s[..|s| - 1];
      assert s == s' + [x];
      assert x in multiset(t);
      var i :| 0 <= i < |t| && t[i] == x;
      var t' := t[..i] + t[i + 1..];
      SplitAround(t, i);
      assert multiset(t') == multiset(t) - multiset{x};
      MentionsPermutation(s', t');
      MentionsRemove(t, i);
    }
  }

  /** The profile does not depend on the order the interactions were scanned in. */
  lemma InterestOrderIndependent(s: seq<Interaction>, t: seq<Interaction>)
    requires multiset(s) == multiset(t)
    ensures InterestProfile(s) == InterestProfile(t)
  {
    MentionsPermutation(s, t);
    var ms, mt := InterestProfile(s), InterestProfile(t);
    forall k ensures Weight(ms, k) == Weight(mt, k) {
      BumpAllWeight(map[], AllMentions(s), k);
      BumpAllWeight(map[], AllMentions(t), k);
      CountIsMultiplicity(AllMentions(s), k);
      CountIsMultiplicity(AllMentions(t), k);
    }
    forall k ensures k in ms <==> k in mt {
      BumpAllKeys(map[], AllMentions(s), k);
      BumpAllKeys(map[], AllMentions(t), k);
      assert k in AllMentions(s) <==> k in multiset(AllMentions(s));
      assert k in AllMentions(t) <==> k in multiset(AllMentions(t));
    }
    forall k | k in ms ensures ms[k] == mt[k] {
      assert Weight(ms, k) == Weight(mt, k);
    }
  }

  // ------------------------------------------------------ personalised feed

  /** `40 * (interestMap[community] || 1) / 10` for a joined community. */
  function CommunityTerm(p: Posts.Post, joined: seq<string>, profile: map<string, nat>): (r: real)
    ensures p.community !in joined ==> r == 0.0
    ensures p.community in joined ==>
      r == 4.0 * (if Weight(profile, p.community) == 0 then 1 else Weight(profile, p.community)) as real
    ensures r >= 0.0
  {
    if p.community in joined then
      var w := Weight(profile, p.community);
      40.0 * (if w == 0 then 1 else w) as real / 10.0
    else 0.0
  }

  /** `tags.reduce((sum, tag) => sum + (interestMap[tag] || 0), 0)`. */
  function TagSum(tags: seq<string>, profile: map<string, nat>): nat
    decreases |tags|
  {
    if tags == [] then 0 else TagSum(tags[..|tags| - 1], profile) + Weight(profile, tags[|tags| - 1])
  }

  function TagTerm(p: Posts.Post, profile: map<string, nat>): (r: real)
    ensures 0.0 <= r <= 30.0
    ensures TagSum(p.tags, profile) >= 30 ==> r == 30.0
  {
    Min(30.0, TagSum(p.tags, profile) as real)
  }

  function EngagementTerm(p: Posts.Post): (r: real)
    ensures r <= 20.0
    ensures 2 * p.upvotes + 3 * p.commentCount - p.downvotes < 0 ==> r < 0.0
  {
    Min(20.0, (p.upvotes * 2 + p.commentCount * 3 - p.downvotes) as real / 10.0)
  }

  function RecencyTerm(p: Posts.Post, now: int): (r: real)
    ensures 0.0 <= r
    ensures p.createdAt <= now ==> r <= 10.0
    ensures r == 0.0 <==> AgeHours(p.createdAt, now) >= 240.0
  {
    Max(0.0, 10.0 - AgeHours(p.createdAt, now) / 24.0)
  }

  predicate Interacted(p: Posts.Post, interactions: seq<Interaction>) {
    exists i :: 0 <= i < |interactions| && interactions[i].postId == p.postId
  }

  function RawScore(p: Posts.Post, joined: seq<string>, profile: map<string, nat>, now: int): real {
    CommunityTerm(p, joined, profile) + TagTerm(p, profile) + EngagementTerm(p) + RecencyTerm(p, now)
  }

  function PersonalizedScore(p: Posts.Post, joined: seq<string>, profile: map<string, nat>,
                             interactions: seq<Interaction>, now: int): real {
    var raw := RawScore(p, joined, profile, now);
    if Interacted(p, interactions) then raw * 0.5 else raw
  }

  /** Bounds on the score, and the halving for posts already interacted with. */
  lemma PersonalizedScoreFacts(p: Posts.Post, joined: seq<string>, profile: map<string, nat>,
                               interactions: seq<Interaction>, now: int)
    requires p.createdAt <= now
    ensures var raw := RawScore(p, joined, profile, now);
      raw <= CommunityTerm(p, joined, profile) + 60.0
      && (p.community !in joined ==> raw <= 60.0)
      && (Interacted(p, interactions) ==> PersonalizedScore(p, joined, profile, interactions, now) == raw / 2.0)
      && (!Interacted(p, interactions) ==> PersonalizedScore(p, joined, profile, interactions, now) == raw)
  {
  }

  function FeedKey(hot: Posts.Post -> real): RankedPost -> real {
    (rp: RankedPost) => rp.score + hot(rp.post)
  }

  /**
   * GET /feed/personalized: the active posts scored against the interest
   * profile and ranked by personalised score plus the opaque hot term.
   */
  method PersonalizedFeed(userId: Option<string>, interactions: seq<Interaction>, joined: seq<string>,
                          scan: seq<Posts.Post>, now: int, limit: int, hot: Posts.Post -> real)
    returns (r: Reply<seq<RankedPost>>)
    ensures !Truthy(userId) ==> r == Failure(400, "userId required")
    ensures Truthy(userId) ==> r.Success?
    ensures r.Success? ==> SortedDesc(r.value, FeedKey(hot))
    ensures r.Success? && 0 <= limit ==> |r.value| <= limit
    ensures r.Success? ==> forall i :: 0 <= i < |r.value| ==>
      r.value[i].post in scan && r.value[i].post.status == "active"
      && r.value[i].score == PersonalizedScore(r.value[i].post, joined, InterestProfile(interactions), interactions, now)
    ensures r.Success? ==> forall p :: p in scan && p.status == "active" && !Kept(p, r.value) ==>
      forall i :: 0 <= i < |r.value| ==>
        PersonalizedScore(p, joined, InterestProfile(interactions), interactions, now) + hot(p)
        <= r.value[i].score + hot(r.value[i].post)
    ensures r.Success? && 0 <= limit && |r.value| < limit ==>
      forall p :: p in scan && p.status == "active" ==> Kept(p, r.value)
  {
    if !Truthy(userId) {
      return Failure(400, "userId required");
    }
    var profile := BuildInterestMap(interactions);
    var active := Filter(scan, Posts.IsActive);
    var f := FeedScorer(joined, profile, interactions, now);
    var scored := MapSeq(active, f);
    forall q | q in scored
      ensures q.post in active && q.score == PersonalizedScore(q.post, joined, profile, interactions, now)
    {
      var i :| 0 <= i < |scored| && scored[i] == q;
      assert q == f(active[i]);
    }
    var top := TopBy(scored, FeedKey(hot), limit);
    forall p | p in active
      ensures !Kept(p, top) ==> forall i :: 0 <= i < |top| ==> FeedKey(hot)(f(p)) <= FeedKey(hot)(top[i])
      ensures 0 <= limit && |top| < limit ==> Kept(p, top)
    {
      MapHas(active, f, p);
      KeptOrOutranked(scored, FeedKey(hot), limit, f(p));
    }
    r := Success(top);
  }

  function FeedScorer(joined: seq<string>, profile: map<string, nat>, interactions: seq<Interaction>, now: int)
    : Posts.Post -> RankedPost
  {
    (p: Posts.Post) => RankedPost(p, PersonalizedScore(p, joined, profile, interactions, now))
  }

  // -------------------------------------------------------- trending topics

  datatype TagCount = TagCount(tag: string, count: nat)

  function CountKey(e: TagCount): real { e.count as real }

  /** Some entry of the ranking counts `t`. */
  predicate Ranked(t: string, top: seq<TagCount>) {
    exists i :: 0 <= i < |top| && top[i].tag == t
  }

  /** The topic windows in milliseconds; any other timeframe has none. */
  function TopicWindow(timeframe: string): (w: Option<int>)
    ensures w.Some? <==> timeframe in {"hour", "day", "week"}
  {
    if timeframe == "hour" then Some(3600000)
    else if timeframe == "day" then Some(86400000)
    else if timeframe == "week" then Some(604800000)
    else None
  }

  /** Post items created after `since`, whatever their status. */
  function Newer(ps: seq<Posts.Post>, since: int): (r: seq<Posts.Post>)
    ensures forall p :: p in r <==> p in ps && p.createdAt > since
  {
    Filter(ps, (p: Posts.Post) => p.createdAt > since)
  }

  lemma TagsSnoc(ps: seq<Posts.Post>, i: nat)
    requires i < |ps|
    ensures AllTagsOf(ps[..i + 1]) == AllTagsOf(ps[..i]) + ps[i].tags
  {
    assert ps[..i + 1][..i] == ps[..i];
  }

  /** One occurrence of `tag` after `seen`: its weight goes up by one, and a new tag joins the order. */
  lemma CountStep(seen: seq<string>, tag: string)
    ensures BumpAll(map[], seen + [tag]) == BumpAll(map[], seen)[tag := Weight(BumpAll(map[], seen), tag) + 1]
    ensures Dedup(seen + [tag]) == if tag in BumpAll(map[], seen) then Dedup(seen) else Dedup(seen) + [tag]
  {
    BumpAllSnoc(map[], seen, tag);
    DedupSnoc(seen, tag);
    BumpAllKeys(map[], seen, tag);
  }

  /** `tagCounts[tag] = (tagCounts[tag] || 0) + 1` for one occurrence. */
  method CountOne(counts0: map<string, nat>, order0: seq<string>, ghost seen: seq<string>, tag: string)
    returns (counts: map<string, nat>, order: seq<string>)
    requires counts0 == BumpAll(map[], seen) && order0 == Dedup(seen)
    ensures counts == BumpAll(map[], seen + [tag]) && order == Dedup(seen + [tag])
  {
    CountStep(seen, tag);
    order := if tag in counts0 then order0 else order0 + [tag];
    counts := counts0[tag := Weight(counts0, tag) + 1];
  }

  /** The inner loop over one post's tags. */
  method CountPostTags(counts0: map<string, nat>, order0: seq<string>, ghost before: seq<string>, tags: seq<string>)
    returns (counts: map<string, nat>, order: seq<string>)
    requires counts0 == BumpAll(map[], before) && order0 == Dedup(before)
    ensures counts == BumpAll(map[], before + tags)
    ensures order == Dedup(before + tags)
  {
    counts, order := counts0, order0;
    assert before + tags[..0] == before;
    var j := 0;
    while j < |tags|
      invariant 0 <= j <= |tags|
      invariant counts == BumpAll(map[], before + tags[..j]) && order == Dedup(before + tags[..j])
    {
      AppendPrefixSnoc(before, tags, j);
      counts, order := CountOne(counts, order, before + tags[..j], tags[j]);
      j := j + 1;
    }
    assert tags[..|tags|] == tags;
  }

  /** Count each tag occurrence; `order` lists the tags by first occurrence, as object keys keep non-numeric names. */
  method CountTags(ps: seq<Posts.Post>) returns (counts: map<string, nat>, order: seq<string>)
    ensures counts == BumpAll(map[], AllTagsOf(ps))
    ensures order == Dedup(AllTagsOf(ps))
  {
    counts := map[];
    order := [];
    var i := 0;
    while i < |ps|
      invariant 0 <= i <= |ps|
      invariant counts == BumpAll(map[], AllTagsOf(ps[..i]))
      invariant order == Dedup(AllTagsOf(ps[..i]))
    {
      counts, order := CountPostTags(counts, order, AllTagsOf(ps[..i]), ps[i].tags);
      TagsSnoc(ps, i);
      i := i + 1;
    }
    assert ps[..|ps|] == ps;
  }

  /** One counted tag is either ranked, or outranked by every ranked entry. */
  lemma RankedOrOutranked(entries: seq<TagCount>, limit: int, e: TagCount)
    requires e in entries
    ensures var top := TopBy(entries, CountKey, limit);
      (!Ranked(e.tag, top) ==> forall i :: 0 <= i < |top| ==> e.count <= top[i].count)
      && (0 <= limit && |top| < limit ==> Ranked(e.tag, top))
  {
    var top := TopBy(entries, CountKey, limit);
    TopByMember(entries, CountKey, limit, e);
    if e in top {
      var i :| 0 <= i < |top| && top[i] == e;
      assert top[i].tag == e.tag;
    }
  }

  /** A tag left out of the ranking is counted no more often than any ranked tag. */
  lemma TopicsOutrank(entries: seq<TagCount>, tags: seq<string>, limit: int)
    requires forall i :: 0 <= i < |entries| ==> entries[i].count == Count(tags, entries[i].tag)
    requires forall t :: t in tags ==> exists k :: 0 <= k < |entries| && entries[k].tag == t
    ensures var top := TopBy(entries, CountKey, limit);
      (forall t :: t in tags && !Ranked(t, top) ==> forall i :: 0 <= i < |top| ==> Count(tags, t) <= top[i].count)
      && (0 <= limit && |top| < limit ==> forall t :: t in tags ==> Ranked(t, top))
  {
    var top := TopBy(entries, CountKey, limit);
    forall t | t in tags
      ensures !Ranked(t, top) ==> forall i :: 0 <= i < |top| ==> Count(tags, t) <= top[i].count
      ensures 0 <= limit && |top| < limit ==> Ranked(t, top)
    {
      var k :| 0 <= k < |entries| && entries[k].tag == t;
      RankedOrOutranked(entries, limit, entries[k]);
    }
  }

  /** With a limit covering every distinct tag, each tag appears in the ranking. */
  lemma TopicsComplete(order: seq<string>, entries: seq<TagCount>, top: seq<TagCount>, tags: seq<string>)
    requires order == Dedup(tags)
    requires |entries| == |order| && forall i :: 0 <= i < |order| ==> entries[i].tag == order[i]
    requires multiset(top) == multiset(entries)
    ensures forall t :: t in tags ==> exists i :: 0 <= i < |top| && top[i].tag == t
  {
    forall t | t in tags ensures exists i :: 0 <= i < |top| && top[i].tag == t {
      var k :| 0 <= k < |order| && order[k] == t;
      assert entries[k] in multiset(top);
      var i :| 0 <= i < |top| && top[i] == entries[k];
    }
  }

  /**
   * GET /trending/topics: tag frequencies over post items newer than the
   * window, most frequent first; an unknown timeframe fails with 500.
   */
  method TrendingTopics(timeframe: Option<string>, scan: seq<Posts.Post>, now: int, limit: int)
    returns (r: Reply<seq<TagCount>>)
    ensures TopicWindow(OrElse(timeframe, "day")).None? ==> r == Failure(500, "trending topics failed")
    ensures TopicWindow(OrElse(timeframe, "day")).Some? ==> r.Success?
    ensures r.Success? ==>
      var tags := AllTagsOf(Newer(scan, now - TopicWindow(OrElse(timeframe, "day")).value));
      SortedDesc(r.value, CountKey)
      && (0 <= limit ==> |r.value| <= limit)
      && (forall i :: 0 <= i < |r.value| ==>
            r.value[i].tag in tags && r.value[i].count == Count(tags, r.value[i].tag))
      && (limit >= |Dedup(tags)| ==> forall t :: t in tags ==> exists i :: 0 <= i < |r.value| && r.value[i].tag == t)
      && (forall t :: t in tags && !Ranked(t, r.value) ==>
            forall i :: 0 <= i < |r.value| ==> Count(tags, t) <= r.value[i].count)
      && (0 <= limit && |r.value| < limit ==> forall t :: t in tags ==> Ranked(t, r.value))
  {
    var window := TopicWindow(OrElse(timeframe, "day"));
    if window.None? {
      return Failure(500, "trending topics failed");
    }
    var recent := Newer(scan, now - window.value);
    var counts, order := CountTags(recent);
    var top := RankTopics(counts, order, AllTagsOf(recent), limit);
    r := Success(top);
  }

  /** The counted tags as entries, most frequent first, at most `limit` of them. */
  method RankTopics(counts: map<string, nat>, order: seq<string>, ghost tags: seq<string>, limit: int)
    returns (top: seq<TagCount>)
    requires counts == BumpAll(map[], tags) && order == Dedup(tags)
    ensures SortedDesc(top, CountKey)
    ensures 0 <= limit ==> |top| <= limit
    ensures forall i :: 0 <= i < |top| ==> top[i].tag in tags && top[i].count == Count(tags, top[i].tag)
    ensures limit >= |Dedup(tags)| ==> forall t :: t in tags ==> exists i :: 0 <= i < |top| && top[i].tag == t
    ensures forall t :: t in tags && !Ranked(t, top) ==> forall i :: 0 <= i < |top| ==> Count(tags, t) <= top[i].count
    ensures 0 <= limit && |top| < limit ==> forall t :: t in tags ==> Ranked(t, top)
  {
    var entries := seq(|order|, i requires 0 <= i < |order| => TagCount(order[i], Weight(counts, order[i])));
    forall i | 0 <= i < |entries|
      ensures entries[i].tag == order[i] && entries[i].count == Count(tags, order[i])
    {
      BumpAllWeight(map[], tags, order[i]);
    }
    top := TopBy(entries, CountKey, limit);
    TopicsCounted(order, entries, tags, limit);
    TopicsRanking(order, entries, tags, limit);
  }

  /** Each ranked entry is a tag of the window with its count. */
  lemma TopicsCounted(order: seq<string>, entries: seq<TagCount>, tags: seq<string>, limit: int)
    requires order == Dedup(tags)
    requires |entries| == |order|
    requires forall i :: 0 <= i < |order| ==> entries[i].tag == order[i] && entries[i].count == Count(tags, order[i])
    ensures var top := TopBy(entries, CountKey, limit);
      forall i :: 0 <= i < |top| ==> top[i].tag in tags && top[i].count == Count(tags, top[i].tag)
  {
    var top := TopBy(entries, CountKey, limit);
    forall i | 0 <= i < |top| ensures top[i].tag in tags && top[i].count == Count(tags, top[i].tag) {
      var k :| 0 <= k < |entries| && entries[k] == top[i];
      assert order[k] in tags;
    }
  }

  /** The ranking facts of RankTopics, from the entries in key order with their counts. */
  lemma TopicsRanking(order: seq<string>, entries: seq<TagCount>, tags: seq<string>, limit: int)
    requires order == Dedup(tags)
    requires |entries| == |order|
    requires forall i :: 0 <= i < |order| ==> entries[i].tag == order[i] && entries[i].count == Count(tags, order[i])
    ensures var top := TopBy(entries, CountKey, limit);
      (limit >= |Dedup(tags)| ==> forall t :: t in tags ==> exists i :: 0 <= i < |top| && top[i].tag == t)
      && (forall t :: t in tags && !Ranked(t, top) ==> forall i :: 0 <= i < |top| ==> Count(tags, t) <= top[i].count)
      && (0 <= limit && |top| < limit ==> forall t :: t in tags ==> Ranked(t, top))
  {
    var top := TopBy(entries, CountKey, limit);
    if limit >= |Dedup(tags)| {
      TopicsComplete(order, entries, top, tags);
    }
    forall t | t in tags ensures exists k :: 0 <= k < |entries| && entries[k].tag == t {
      var k :| 0 <= k < |order| && order[k] == t;
      assert entries[k].tag == t;
    }
    forall i | 0 <= i < |entries| ensures entries[i].count == Count(tags, entries[i].tag) {
    }
    TopicsOutrank(entries, tags, limit);
  }

  // -------------------------------------------------------------- spam check

  datatype SpamIndicators = SpamIndicators(excessiveCaps: bool, excessiveLinks: bool,
                                           excessiveEmojis: bool, repeatedChars: bool,
                                           shortWithLinks: bool)

  datatype SpamVerdict = SpamVerdict(isSpam: bool, spamScore: real, indicators: SpamIndicators)

  /** Matches of `/[A-Z]/g`. */
  function CountCaps(s: string): nat
    decreases |s|
  {
    if s == [] then 0 else CountCaps(s[..|s| - 1]) + (if 'A' <= s[|s| - 1] <= 'Z' then 1 else 0)
  }

  /** A match of `/https?:\/\//` starts at `i`. */
  predicate LinkAt(s: string, i: nat)
    requires i <= |s|
  {
    StartsWith(s[i..], "http://") || StartsWith(s[i..], "https://")
  }

  /**
   * Matches of `/https?:\/\//g`. Two matches never overlap (a match holds
   * no `h` after its first character), so counting start positions counts matches.
   */
  function CountLinks(s: string): nat
    decreases |s|
  {
    if s == [] then 0 else CountLinks(s[1..]) + (if LinkAt(s, 0) then 1 else 0)
  }

  /** Code points of the Emoticons block, U+1F600 to U+1F64F. */
  function CountEmoji(s: string): nat
    decreases |s|
  {
    if s == [] then 0
    else CountEmoji(s[..|s| - 1]) + (if '\U{1F600}' <= s[|s| - 1] <= '\U{1F64F}' then 1 else 0)
  }

  /** The emoticon count of two texts joined is the sum of their counts. */
  lemma {:induction false} CountEmojiAppend(a: string, b: string)
    ensures CountEmoji(a + b) == CountEmoji(a) + CountEmoji(b)
    decreases |b|
  {
    if b == [] {
      assert a + b == a;
    } else {
      var init := b[..|b| - 1];
      CountEmojiAppend(a, init);
      assert (a + b)[..|a + b| - 1] == a + init;
      assert (a + b)[|a + b| - 1] == b[|b| - 1];
    }
  }

  /** The characters a regular expression `.` does not match. */
  predicate LineTerminator(c: char) {
    c == '\n' || c == '\r' || c == '\U{2028}' || c == '\U{2029}'
  }

  /** `/(.)\1{4,}/` matches at `i`: five equal characters that are not line terminators. */
  predicate RunAt(s: string, i: int) {
    0 <= i && i + 5 <= |s| && !LineTerminator(s[i])
    && s[i + 1] == s[i] && s[i + 2] == s[i] && s[i + 3] == s[i] && s[i + 4] == s[i]
  }

  predicate RepeatedChars(s: string) {
    exists i :: 0 <= i < |s| && RunAt(s, i)
  }

  /** `caps / length > 0.6` is `5 * caps > 3 * length` for a non-empty text. */
  lemma RatioAbove(c: nat, l: nat)
    requires l > 0
    ensures (c as real / l as real > 0.6) <==> 5 * c > 3 * l
  {
    var C, L := c as real, l as real;
    var q := C / L;
    var d := q - 0.6;
    assert q * L == C;
    assert d * L == C - 0.6 * L;
    if d > 0.0 {
      assert d * L > 0.0;
    } else {
      assert d * L <= 0.0;
    }
    assert (5 * c > 3 * l) <==> 5.0 * C > 3.0 * L;
  }

  function Indicators(text: string): (r: SpamIndicators)
    requires |text| > 0
    ensures r.excessiveCaps <==> 5 * CountCaps(text) > 3 * |text|
    ensures r.excessiveLinks <==> CountLinks(text) > 3
    ensures r.excessiveEmojis <==> CountEmoji(text) > 10
    ensures r.shortWithLinks <==> |text| < 50 && CountLinks(text) > 0
    ensures r.repeatedChars <==> exists i :: 0 <= i && i + 5 <= |text| && RunAt(text, i)
  {
    RatioAbove(CountCaps(text), |text|);
    SpamIndicators(
      CountCaps(text) as real / |text| as real > 0.6,
      CountLinks(text) > 3,
      CountEmoji(text) > 10,
      RepeatedChars(text),
      |text| < 50 && CountLinks(text) > 0)
  }

  function NumTrue(ind: SpamIndicators): nat {
    (if ind.excessiveCaps then 1 else 0) + (if ind.excessiveLinks then 1 else 0)
    + (if ind.excessiveEmojis then 1 else 0) + (if ind.repeatedChars then 1 else 0)
    + (if ind.shortWithLinks then 1 else 0)
  }

  /** POST /content/spam-check: the share of indicators that fire; spam above 0.4. */
  function SpamCheck(text: Option<string>): (r: Reply<SpamVerdict>)
    ensures !Truthy(text) ==> r == Failure(400, "text required")
    ensures Truthy(text) ==> r.Success? && r.value.indicators == Indicators(text.value)
    ensures r.Success? ==> r.value.spamScore == NumTrue(r.value.indicators) as real / 5.0
    ensures r.Success? ==> (r.value.isSpam <==> NumTrue(r.value.indicators) >= 3)
  {
    if !Truthy(text) then Failure(400, "text required")
    else
      var ind := Indicators(text.value);
      var score := NumTrue(ind) as real / 5.0;
      Success(SpamVerdict(score > 0.4, score, ind))
  }

  // ---------------------------------------------------------------- dispatch

  /** The request fields the handler's if-chain reads; `recType` is the `type` query parameter. */
  datatype Request = Request(httpMethod: string, path: string, postId: Option<string>, commentId: Option<string>,
                             recType: Option<string>)

  datatype Route =
    | Preflight | AutoTagRoute | SentimentRoute | ModerateRoute | RecommendRoute | DiscoverRoute
    | ToxicityRoute | PersonalizedRoute | CommunityRecsRoute | TopicsRoute | SpamRoute | BadRequest

  /** The handler's if-chain, first match wins. */
  function RouteOf(r: Request): Route {
    var m, path := r.httpMethod, r.path;
    if m == "OPTIONS" then Preflight
    else if m == "POST" && Truthy(r.postId) && Includes(path, "/auto-tag") then AutoTagRoute
    else if m == "GET" && Includes(path, "/sentiment") then SentimentRoute
    else if m == "POST" && Includes(path, "/media/moderate") then ModerateRoute
    else if m == "GET" && path == "/recommendations" then RecommendRoute
    else if m == "GET" && Includes(path, "/communities/discover") then DiscoverRoute
    else if m == "POST" && Truthy(r.commentId) && Includes(path, "/analyze-toxicity") then ToxicityRoute
    else if m == "GET" && Includes(path, "/personalized") then PersonalizedRoute
    else if m == "GET" && Includes(path, "/recommendations") then CommunityRecsRoute
    else if m == "GET" && Includes(path, "/trending/topics") then TopicsRoute
    else if m == "POST" && Includes(path, "/spam-check") then SpamRoute
    else BadRequest
  }

  /** A path whose only slash leads it contains a slash-led text only as a prefix. */
  lemma SlashLedOnlyAtStart(path: string, t: string)
    requires |path| >= 1 && path[0] == '/' && forall i :: 1 <= i < |path| ==> path[i] != '/'
    requires |t| >= 1 && t[0] == '/' && !StartsWith(path, t)
    ensures !Includes(path, t)
  {
    forall k | 0 <= k <= |path|
      ensures !OccursAt(path, t, k)
    {
      if k + |t| <= |path| {
        assert path[k..k + |t|][0] == path[k];
        if k == 0 {
          assert path[k..k + |t|] == path[..|t|];
        }
      }
    }
  }

  /** `/recommendations` holds none of the earlier GET markers, and holds its own. */
  lemma RecommendationsPathFacts()
    ensures !Includes("/recommendations", "/sentiment")
    ensures !Includes("/recommendations", "/communities/discover")
    ensures !Includes("/recommendations", "/personalized")
    ensures Includes("/recommendations", "/recommendations")
  {
    var path := "/recommendations";
    assert path[..10][1] != "/sentiment"[1];
    SlashLedOnlyAtStart(path, "/sentiment");
    SlashLedOnlyAtStart(path, "/communities/discover");
    assert path[..13][1] != "/personalized"[1];
    SlashLedOnlyAtStart(path, "/personalized");
    IncludesMiddle("", path, "");
    assert "" + path + "" == path;
  }

  /**
   * As written: every GET on `/recommendations` is answered by the post
   * recommender, whatever its `type`, so `type=communities` never reaches
   * the community recommendations.
   */
  lemma CommunityRecommendationsShadowed(r: Request)
    requires r.httpMethod == "GET" && r.path == "/recommendations"
    ensures RouteOf(r) == RecommendRoute
    ensures RouteOf(r) != CommunityRecsRoute
  {
    RecommendationsPathFacts();
  }

  /** The chain with the exact-path branch leaving `type=communities` to the community recommendations. */
  function RouteOfCorrected(r: Request): Route {
    var m, path := r.httpMethod, r.path;
    if m == "GET" && path == "/recommendations" && OrElse(r.recType, "posts") == "communities"
    then CommunityRecsRoute
    else RouteOf(r)
  }

  /**
   * Corrected: GET `/recommendations?type=communities` reaches the community
   * recommendations, and every other request is routed as before.
   */
  lemma CorrectedRecommendationRoutes(r: Request)
    ensures r.httpMethod == "GET" && r.path == "/recommendations" ==>
      (RouteOfCorrected(r) == CommunityRecsRoute <==> OrElse(r.recType, "posts") == "communities")
    ensures !(r.path == "/recommendations" && OrElse(r.recType, "posts") == "communities") ==>
      RouteOfCorrected(r) == RouteOf(r)
  {
    if r.httpMethod == "GET" && r.path == "/recommendations" {
      CommunityRecommendationsShadowed(r);
    }
  }
}
