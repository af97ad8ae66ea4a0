// Social handler: follow edges, direct messages and their conversation
// record, the inbox unread count, sharing and crossposting, the following
// feed's scan parameters and ordering, and blocking.

module Social {
  import opened Common

  // ------------------------------------------------------------------ records

  /** A follow edge (`PK = USER#followerId`, `SK = FOLLOWING#followingId`). */
  datatype FollowEdge = FollowEdge(followerId: string, followingId: string,
                                   followingUsername: string, createdAt: int)

  /** A block record (`PK = USER#blockerId`, `SK = BLOCKED#blockedId`). */
  datatype BlockRecord = BlockRecord(blockerId: string, blockedId: string,
                                     blockedUsername: string, createdAt: int)

  /** One direct message (`PK = CONV#conversationId`, `SK = MSG#createdAt#messageId`). */
  datatype Message = Message(
    messageId: string, conversationId: string, senderId: string, recipientId: string,
    encryptedMessage: string, media: seq<string>, replyToId: Option<string>,
    read: bool, delivered: bool, encrypted: bool, createdAt: int)

  /** The conversation's `META` record. */
  datatype Conversation = Conversation(
    conversationId: string, participants: seq<string>,
    lastMessageAt: int, lastMessagePreview: string, updatedAt: int)

  /**
   * A post item as this handler reads and writes it. Fields the original may
   * lack (`body`, `media`, `tags`) are optional; a crosspost carries
   * `originalPostId` and `originalCommunity`.
   */
  datatype PostItem = PostItem(
    itemType: string, postId: string, community: string, userId: string, title: string,
    body: Option<string>, media: Option<seq<string>>, tags: Option<seq<string>>,
    score: int, upvotes: int, downvotes: int, commentCount: int, viewCount: int,
    shareCount: int, status: string, isCrosspost: bool,
    originalPostId: Option<string>, originalCommunity: Option<string>,
    createdAt: int, updatedAt: int)

  /**
   * The part of the table this handler touches: each username's profile
   * `userId`, follow edges and blocks keyed by (from, to), conversation
   * records, messages keyed by (conversation, time, id), and posts by postId
   * (the `GSI1PK = POST#postId` lookup).
   */
  datatype Store = Store(
    userIds: map<string, string>,
    follows: map<(string, string), FollowEdge>,
    blocks: map<(string, string), BlockRecord>,
    conversations: map<string, Conversation>,
    messages: map<(string, int, string), Message>,
    posts: map<string, PostItem>)

  datatype Outcome = Outcome(status: nat, message: string, store: Store)

  // ------------------------------------------------------------ follow edges

  /** POST /users/{username}/follow. */
  function Follow(s: Store, targetUsername: string, userId: Option<string>, now: int): (o: Outcome)
    ensures !Truthy(userId) ==> o == Outcome(400, "userId required", s)
    ensures Truthy(userId) && targetUsername !in s.userIds ==> o == Outcome(404, "user not found", s)
    ensures Truthy(userId) && targetUsername in s.userIds
            && (userId.value, s.userIds[targetUsername]) in s.follows
            ==> o == Outcome(409, "already following", s)
    ensures o.status == 200 <==>
      Truthy(userId) && targetUsername in s.userIds
      && (userId.value, s.userIds[targetUsername]) !in s.follows
    ensures o.status == 200 ==>
      var edge := (userId.value, s.userIds[targetUsername]);
      o.store == s.(follows := s.follows[edge := FollowEdge(edge.0, edge.1, targetUsername, now)])
  {
    if !Truthy(userId) then Outcome(400, "userId required", s)
    else if targetUsername !in s.userIds then Outcome(404, "user not found", s)
    else
      var edge := (userId.value, s.userIds[targetUsername]);
      if edge in s.follows then Outcome(409, "already following", s)
      else Outcome(200, "now following", s.(follows := s.follows[edge := FollowEdge(edge.0, edge.1, targetUsername, now)]))
  }

  /** DELETE /users/{username}/follow: deletes the edge whether or not it exists. */
  function Unfollow(s: Store, targetUsername: string, userId: Option<string>): (o: Outcome)
    ensures !Truthy(userId) ==> o == Outcome(400, "userId required", s)
    ensures Truthy(userId) && targetUsername !in s.userIds ==> o == Outcome(404, "user not found", s)
    ensures o.status == 200 <==> Truthy(userId) && targetUsername in s.userIds
    ensures o.status == 200 ==>
      o.store == s.(follows := s.follows - {(userId.value, s.userIds[targetUsername])})
  {
    if !Truthy(userId) then Outcome(400, "userId required", s)
    else if targetUsername !in s.userIds then Outcome(404, "user not found", s)
    else Outcome(200, "unfollowed", s.(follows := s.follows - {(userId.value, s.userIds[targetUsername])}))
  }

  /** A second follow of the same user is refused and writes nothing. */
  lemma FollowTwiceConflicts(s: Store, targetUsername: string, userId: Option<string>, now: int, later: int)
    requires Follow(s, targetUsername, userId, now).status == 200
    ensures var s1 := Follow(s, targetUsername, userId, now).store;
      Follow(s1, targetUsername, userId, later) == Outcome(409, "already following", s1)
  {
  }

  /** Unfollowing right after a follow restores the follow edges. */
  lemma FollowThenUnfollow(s: Store, targetUsername: string, userId: Option<string>, now: int)
    requires Follow(s, targetUsername, userId, now).status == 200
    ensures var s1 := Follow(s, targetUsername, userId, now).store;
      Unfollow(s1, targetUsername, userId) == Outcome(200, "unfollowed", s)
  {
    var edge := (userId.value, s.userIds[targetUsername]);
    assert s.follows[edge := FollowEdge(edge.0, edge.1, targetUsername, now)] - {edge} == s.follows;
  }

  /** Following does not consult blocks: its answer is the same whatever blocks exist. */
  lemma FollowIgnoresBlocks(s: Store, blocks: map<(string, string), BlockRecord>,
                            targetUsername: string, userId: Option<string>, now: int)
    ensures Follow(s.(blocks := blocks), targetUsername, userId, now).status
         == Follow(s, targetUsername, userId, now).status
  {
  }

  // ------------------------------------------------------------------- blocks

  /** POST /users/{username}/block: records the block and drops both follow edges. */
  function Block(s: Store, targetUsername: string, userId: Option<string>, now: int): (o: Outcome)
    ensures !Truthy(userId) ==> o == Outcome(400, "userId required", s)
    ensures Truthy(userId) && targetUsername !in s.userIds ==> o == Outcome(404, "user not found", s)
    ensures o.status == 200 <==> Truthy(userId) && targetUsername in s.userIds
    ensures o.status == 200 ==>
      var u, t := userId.value, s.userIds[targetUsername];
      o.store.blocks == s.blocks[(u, t) := BlockRecord(u, t, targetUsername, now)]
      && o.store.follows == s.follows - {(u, t), (t, u)}
      && o.store.(blocks := s.blocks, follows := s.follows) == s
  {
    if !Truthy(userId) then Outcome(400, "userId required", s)
    else if targetUsername !in s.userIds then Outcome(404, "user not found", s)
    else
      var u, t := userId.value, s.userIds[targetUsername];
      var s1 := s.(blocks := s.blocks[(u, t) := BlockRecord(u, t, targetUsername, now)]);
      var s2 := s1.(follows := s1.follows - {(u, t)});
      Outcome(200, "user blocked", s2.(follows := s2.follows - {(t, u)}))
  }

  /** DELETE /users/{username}/block. */
  function Unblock(s: Store, targetUsername: string, userId: Option<string>): (o: Outcome)
    ensures !Truthy(userId) ==> o == Outcome(400, "userId required", s)
    ensures Truthy(userId) && targetUsername !in s.userIds ==> o == Outcome(404, "user not found", s)
    ensures o.status == 200 <==> Truthy(userId) && targetUsername in s.userIds
    ensures o.status == 200 ==>
      o.store == s.(blocks := s.blocks - {(userId.value, s.userIds[targetUsername])})
  {
    if !Truthy(userId) then Outcome(400, "userId required", s)
    else if targetUsername !in s.userIds then Outcome(404, "user not found", s)
    else Outcome(200, "user unblocked", s.(blocks := s.blocks - {(userId.value, s.userIds[targetUsername])}))
  }

  /** After a block neither user follows the other, and every other edge is kept. */
  lemma BlockSeversFollows(s: Store, targetUsername: string, userId: Option<string>, now: int)
    requires Block(s, targetUsername, userId, now).status == 200
    ensures var u, t := userId.value, s.userIds[targetUsername];
      var f := Block(s, targetUsername, userId, now).store.follows;
      (u, t) !in f && (t, u) !in f
      && forall e :: e in s.follows && e != (u, t) && e != (t, u) ==> e in f && f[e] == s.follows[e]
  {
  }

  /** Unblocking keeps the follow edges the block removed removed. */
  lemma BlockThenUnblock(s: Store, targetUsername: string, userId: Option<string>, now: int)
    requires Block(s, targetUsername, userId, now).status == 200
    ensures var u, t := userId.value, s.userIds[targetUsername];
      var s2 := Unblock(Block(s, targetUsername, userId, now).store, targetUsername, userId).store;
      s2.blocks == s.blocks - {(u, t)} && s2.follows == s.follows - {(u, t), (t, u)}
  {
    var u, t := userId.value, s.userIds[targetUsername];
    assert s.blocks[(u, t) := BlockRecord(u, t, targetUsername, now)] - {(u, t)} == s.blocks - {(u, t)};
  }

  // ----------------------------------------------------------- string order

  /** JavaScript's default string comparison: `a` sorts no later than `b`. */
  predicate LexLe(a: string, b: string)
    decreases |a|
  {
    a == [] || (b != [] && (a[0] < b[0] || (a[0] == b[0] && LexLe(a[1..], b[1..]))))
  }

  lemma {:induction false} LexTotal(a: string, b: string)
    ensures LexLe(a, b) || LexLe(b, a)
    decreases |a|
  {
    if a != [] && b != [] && a[0] == b[0] {
      LexTotal(a[1..], b[1..]);
    }
  }

  lemma {:induction false} LexAntisymmetric(a: string, b: string)
    requires LexLe(a, b) && LexLe(b, a)
    ensures a == b
    decreases |a|
  {
    if a != [] && b != [] {
      LexAntisymmetric(a[1..], b[1..]);
      assert a == [a[0]] + a[1..] && b == [b[0]] + b[1..];
    }
  }

  /** `[a, b].sort().join("#")`. */
  function ConversationId(a: string, b: string): (r: string)
    ensures r == a + "#" + b || r == b + "#" + a
  {
    if LexLe(a, b) then a + "#" + b else b + "#" + a
  }

  /** Both participants name the same conversation. */
  lemma ConversationIdSymmetric(a: string, b: string)
    ensures ConversationId(a, b) == ConversationId(b, a)
  {
    LexTotal(a, b);
    if LexLe(a, b) && LexLe(b, a) {
      LexAntisymmetric(a, b);
    }
  }

  /** The id is the two participants in lexicographic order, joined by '#'. */
  lemma ConversationIdOrdered(a: string, b: string, x: string, y: string)
    requires multiset{x, y} == multiset{a, b} && LexLe(x, y)
    ensures ConversationId(a, b) == x + "#" + y
  {
    assert x in multiset{a, b} && y in multiset{a, b};
    if x == a {
      assert y == b by {
        assert multiset{a, y} == multiset{a, b};
        assert multiset{y} == multiset{b};
      }
    } else {
      assert x == b;
      assert y == a by {
        assert multiset{b, y} == multiset{a, b};
        assert multiset{y} == multiset{a};
      }
      if LexLe(a, b) {
        LexAntisymmetric(a, b);
      }
    }
  }

  // ----------------------------------------------------------------- messages

  datatype MessageRequest = MessageRequest(
    senderId: Option<string>, recipientId: Option<string>, encryptedMessage: Option<string>,
    media: Option<seq<string>>, replyToId: Option<string>)

  /** POST /messages: the message record and the conversation's overwritten META. */
  function SendMessage(s: Store, req: MessageRequest, messageId: string, now: int): (o: Outcome)
    ensures o.status == 400 <==>
      !Truthy(req.senderId) || !Truthy(req.recipientId) || !Truthy(req.encryptedMessage)
    ensures o.status == 400 ==> o.store == s
    ensures o.status != 400 ==> o.status == 201
    ensures o.status == 201 ==>
      var cid := ConversationId(req.senderId.value, req.recipientId.value);
      o.store.messages.Keys == s.messages.Keys + {(cid, now, messageId)}
      && (forall k :: k in s.messages && k != (cid, now, messageId) ==> o.store.messages[k] == s.messages[k])
      && o.store.conversations.Keys == s.conversations.Keys + {cid}
      && (forall k :: k in s.conversations && k != cid ==> o.store.conversations[k] == s.conversations[k])
      && o.store.(messages := s.messages, conversations := s.conversations) == s
    ensures o.status == 201 ==>
      var key := (ConversationId(req.senderId.value, req.recipientId.value), now, messageId);
      key in o.store.messages &&
      (var m := o.store.messages[key];
       m.messageId == messageId && m.conversationId == ConversationId(req.senderId.value, req.recipientId.value)
       && !m.read && !m.delivered && m.encrypted && m.createdAt == now
       && m.senderId == req.senderId.value && m.recipientId == req.recipientId.value
       && m.encryptedMessage == req.encryptedMessage.value
       && m.media == (if req.media.Some? then req.media.value else [])
       && m.replyToId == (if Truthy(req.replyToId) then req.replyToId else None))
    ensures o.status == 201 ==>
      var cid := ConversationId(req.senderId.value, req.recipientId.value);
      cid in o.store.conversations &&
      (var c := o.store.conversations[cid];
       c.lastMessageAt == now && c.updatedAt == now
       && c.lastMessagePreview == "[Encrypted message]"
       && c.participants == [req.senderId.value, req.recipientId.value])
  {
    if !Truthy(req.senderId) || !Truthy(req.recipientId) || !Truthy(req.encryptedMessage) then
      Outcome(400, "senderId, recipientId, and encryptedMessage required", s)
    else
      var sender, recipient := req.senderId.value, req.recipientId.value;
      var cid := ConversationId(sender, recipient);
      var m := Message(messageId, cid, sender, recipient, req.encryptedMessage.value,
                       if req.media.Some? then req.media.value else [],
                       if Truthy(req.replyToId) then req.replyToId else None,
                       false, false, true, now);
      var meta := Conversation(cid, [sender, recipient], now, "[Encrypted message]", now);
      Outcome(201, "", s.(messages := s.messages[(cid, now, messageId) := m],
                          conversations := s.conversations[cid := meta]))
  }

  /** A reply from the recipient lands in the sender's conversation and refreshes its META. */
  lemma ReplyJoinsConversation(s: Store, req: MessageRequest, messageId: string, now: int,
                               reply: MessageRequest, replyId: string, later: int)
    requires SendMessage(s, req, messageId, now).status == 201
    requires Truthy(reply.encryptedMessage)
    requires reply.senderId == req.recipientId && reply.recipientId == req.senderId
    ensures var cid := ConversationId(req.senderId.value, req.recipientId.value);
      var s2 := SendMessage(SendMessage(s, req, messageId, now).store, reply, replyId, later).store;
      cid in s2.conversations && s2.conversations[cid].lastMessageAt == later
      && |s2.conversations.Keys| == |SendMessage(s, req, messageId, now).store.conversations.Keys|
  {
    ConversationIdSymmetric(req.senderId.value, req.recipientId.value);
    var s1 := SendMessage(s, req, messageId, now).store;
    var cid := ConversationId(req.senderId.value, req.recipientId.value);
    assert SendMessage(s1, reply, replyId, later).store.conversations.Keys == s1.conversations.Keys;
  }

  predicate IsUnread(m: Message) { !m.read }
  predicate IsRead(m: Message) { m.read }

  /** GET /messages/inbox: `unreadCount` over the messages the query returned. */
  function UnreadCount(items: seq<Message>): (r: nat)
    ensures r <= |items|
  {
    |Filter(items, IsUnread)|
  }

  /** Every returned message is either counted as unread or is read. */
  lemma {:induction false} UnreadPlusRead(items: seq<Message>)
    ensures UnreadCount(items) + |Filter(items, IsRead)| == |items|
    decreases |items|
  {
    if items != [] {
      UnreadPlusRead(items[..|items| - 1]);
    }
  }

  /** The count is zero exactly when every returned message is read. */
  lemma UnreadZeroIff(items: seq<Message>)
    ensures UnreadCount(items) == 0 <==> forall i :: 0 <= i < |items| ==> items[i].read
  {
    var f := Filter(items, IsUnread);
    if UnreadCount(items) == 0 {
      forall i | 0 <= i < |items| ensures items[i].read {
        assert items[i] in items;
      }
    } else {
      assert f[0] in f;
    }
  }

  // ------------------------------------------------------------------ sharing

  /** `https://yourapp.com/r/{community}/p/{postId}`. */
  function CanonicalUrl(community: string, postId: string): string {
    "https://yourapp.com/r/" + community + "/p/" + postId
  }

  /**
   * `shareUrls[platform] || shareUrl`; `encode` is encodeURIComponent. The
   * four intent URLs are never empty, so the fallback only serves other
   * platforms.
   */
  function ShareUrl(platform: Option<string>, title: string, shareUrl: string,
                    encode: string -> string): string
  {
    if platform == Some("twitter") then
      "https://twitter.com/intent/tweet?text=" + encode(title) + "&url=" + encode(shareUrl)
    else if platform == Some("facebook") then
      "https://www.facebook.com/sharer/sharer.php?u=" + encode(shareUrl)
    else if platform == Some("linkedin") then
      "https://www.linkedin.com/sharing/share-offsite/?url=" + encode(shareUrl)
    else if platform == Some("reddit") then
      "https://reddit.com/submit?url=" + encode(shareUrl) + "&title=" + encode(title)
    else shareUrl
  }

  predicate KnownPlatform(platform: Option<string>) {
    platform in {Some("twitter"), Some("facebook"), Some("linkedin"), Some("reddit")}
  }

  /** Known platforms get an intent URL carrying the encoded canonical URL; others the canonical URL. */
  lemma ShareUrlChoice(platform: Option<string>, title: string, shareUrl: string, encode: string -> string)
    ensures !KnownPlatform(platform) ==> ShareUrl(platform, title, shareUrl, encode) == shareUrl
    ensures KnownPlatform(platform) ==>
      Includes(ShareUrl(platform, title, shareUrl, encode), encode(shareUrl))
      && ShareUrl(platform, title, shareUrl, encode) != ""
    ensures platform == Some("twitter") ==>
      StartsWith(ShareUrl(platform, title, shareUrl, encode), "https://twitter.com/intent/tweet?text=")
    ensures platform == Some("reddit") ==>
      StartsWith(ShareUrl(platform, title, shareUrl, encode), "https://reddit.com/submit?url=")
  {
    var e, t := encode(shareUrl), encode(title);
    if platform == Some("twitter") {
      IncludesMiddle("https://twitter.com/intent/tweet?text=" + t + "&url=", e, "");
      assert "https://twitter.com/intent/tweet?text=" + t + "&url=" + e + "" ==
             "https://twitter.com/intent/tweet?text=" + t + "&url=" + e;
    } else if platform == Some("facebook") {
      IncludesMiddle("https://www.facebook.com/sharer/sharer.php?u=", e, "");
      assert "https://www.facebook.com/sharer/sharer.php?u=" + e + "" ==
             "https://www.facebook.com/sharer/sharer.php?u=" + e;
    } else if platform == Some("linkedin") {
      IncludesMiddle("https://www.linkedin.com/sharing/share-offsite/?url=", e, "");
      assert "https://www.linkedin.com/sharing/share-offsite/?url=" + e + "" ==
             "https://www.linkedin.com/sharing/share-offsite/?url=" + e;
    } else if platform == Some("reddit") {
      IncludesMiddle("https://reddit.com/submit?url=", e, "&title=" + t);
      assert "https://reddit.com/submit?url=" + e + ("&title=" + t) ==
             "https://reddit.com/submit?url=" + e + "&title=" + t;
    }
  }

  datatype ShareOutcome = ShareOutcome(status: nat, shareUrl: string, store: Store)

  /** POST /posts/{postId}/share. */
  function Share(s: Store, postId: string, platform: Option<string>, encode: string -> string): (o: ShareOutcome)
    ensures postId !in s.posts ==> o == ShareOutcome(404, "", s)
    ensures postId in s.posts ==>
      var p := s.posts[postId];
      o.status == 200
      && o.shareUrl == ShareUrl(platform, p.title, CanonicalUrl(p.community, postId), encode)
      && o.store == s.(posts := s.posts[postId := p.(shareCount := p.shareCount + 1)])
  {
    if postId !in s.posts then ShareOutcome(404, "", s)
    else
      var p := s.posts[postId];
      ShareOutcome(200, ShareUrl(platform, p.title, CanonicalUrl(p.community, postId), encode),
                   s.(posts := s.posts[postId := p.(shareCount := p.shareCount + 1)]))
  }

  /** The share counter moves by one whichever platform is named. */
  lemma ShareCountsEveryPlatform(s: Store, postId: string, p1: Option<string>, p2: Option<string>,
                                 encode: string -> string)
    requires postId in s.posts
    ensures Share(s, postId, p1, encode).store == Share(s, postId, p2, encode).store
    ensures Share(s, postId, p1, encode).store.posts[postId].shareCount == s.posts[postId].shareCount + 1
  {
  }

  // -------------------------------------------------------------- crossposts

  datatype CrosspostRequest = CrosspostRequest(
    userId: Option<string>, targetCommunity: Option<string>, title: Option<string>)

  /** The crosspost item the handler writes. */
  function NewCrosspost(original: PostItem, originalPostId: string, req: CrosspostRequest,
                        crosspostId: string, now: int): PostItem
    requires Truthy(req.userId) && Truthy(req.targetCommunity)
  {
    PostItem("post", crosspostId, req.targetCommunity.value, req.userId.value,
             if Truthy(req.title) then req.title.value else "Crosspost: " + original.title,
             original.body, original.media,
             Some(if original.tags.Some? then original.tags.value else []),
             0, 0, 0, 0, 0, 0, "active", true,
             Some(originalPostId), Some(original.community), now, now)
  }

  /** POST /posts/{postId}/crosspost. */
  function Crosspost(s: Store, originalPostId: string, req: CrosspostRequest,
                     crosspostId: string, now: int): (o: Outcome)
    ensures !Truthy(req.userId) || !Truthy(req.targetCommunity) ==>
      o == Outcome(400, "userId and targetCommunity required", s)
    ensures Truthy(req.userId) && Truthy(req.targetCommunity) && originalPostId !in s.posts ==>
      o == Outcome(404, "original post not found", s)
    ensures o.status == 201 <==>
      Truthy(req.userId) && Truthy(req.targetCommunity) && originalPostId in s.posts
    ensures o.status == 201 && crosspostId != originalPostId ==>
      var original := s.posts[originalPostId];
      o.store.posts == s.posts[crosspostId := NewCrosspost(original, originalPostId, req, crosspostId, now)]
                              [originalPostId := original.(shareCount := original.shareCount + 1)]
    ensures o.store.(posts := s.posts) == s
  {
    if !Truthy(req.userId) || !Truthy(req.targetCommunity) then
      Outcome(400, "userId and targetCommunity required", s)
    else if originalPostId !in s.posts then Outcome(404, "original post not found", s)
    else
      var original := s.posts[originalPostId];
      var posts1 := s.posts[crosspostId := NewCrosspost(original, originalPostId, req, crosspostId, now)];
      var stored := posts1[originalPostId];
      Outcome(201, "", s.(posts := posts1[originalPostId := stored.(shareCount := stored.shareCount + 1)]))
  }

  /** The crosspost's title default, zeroed counters and back-reference. */
  lemma CrosspostDefaults(s: Store, originalPostId: string, req: CrosspostRequest,
                          crosspostId: string, now: int)
    requires Crosspost(s, originalPostId, req, crosspostId, now).status == 201
    requires crosspostId != originalPostId
    ensures var c := Crosspost(s, originalPostId, req, crosspostId, now).store.posts[crosspostId];
      var original := s.posts[originalPostId];
      (!Truthy(req.title) ==> c.title == "Crosspost: " + original.title)
      && (Truthy(req.title) ==> c.title == req.title.value)
      && c.score == 0 && c.upvotes == 0 && c.downvotes == 0 && c.commentCount == 0
      && c.viewCount == 0 && c.shareCount == 0
      && c.isCrosspost && c.status == "active"
      && c.originalPostId == Some(originalPostId) && c.originalCommunity == Some(original.community)
      && c.community == req.targetCommunity.value && c.userId == req.userId.value
      && c.body == original.body && c.media == original.media
      && c.tags == Some(if original.tags.Some? then original.tags.value else [])
  {
  }

  /** The original gains one share and keeps everything else. */
  lemma CrosspostCountsShare(s: Store, originalPostId: string, req: CrosspostRequest,
                             crosspostId: string, now: int)
    requires Crosspost(s, originalPostId, req, crosspostId, now).status == 201
    requires crosspostId != originalPostId
    ensures var p := Crosspost(s, originalPostId, req, crosspostId, now).store.posts[originalPostId];
      p == s.posts[originalPostId].(shareCount := s.posts[originalPostId].shareCount + 1)
  {
  }

  // --------------------------------------------------------------------- feed

  /** `:uid{i}`. */
  function Placeholder(i: nat): string {
    ":uid" + NatToString(i)
  }

  lemma PlaceholderInjective(i: nat, j: nat)
    requires Placeholder(i) == Placeholder(j)
    ensures i == j
  {
    assert Placeholder(i)[4..] == NatToString(i);
    assert Placeholder(j)[4..] == NatToString(j);
    NatToStringInjective(i, j);
  }

  /** `:uid0, …, :uid(n-1)` in order. */
  function Placeholders(n: nat): (r: seq<string>)
    ensures |r| == n
    ensures forall i :: 0 <= i < n ==> r[i] == Placeholder(i)
  {
    if n == 0 then [] else Placeholders(n - 1) + [Placeholder(n - 1)]
  }

  /** `Object.fromEntries(ids.map((id, i) => [":uid" + i, id]))`. */
  function Bind(ids: seq<string>): map<string, string>
    decreases |ids|
  {
    if ids == [] then map[]
    else Bind(ids[..|ids| - 1])[Placeholder(|ids| - 1) := ids[|ids| - 1]]
  }

  /** The placeholder for index `i` is bound to `ids[i]`. */
  lemma {:induction false} BindAt(ids: seq<string>, i: nat)
    requires i < |ids|
    ensures Placeholder(i) in Bind(ids) && Bind(ids)[Placeholder(i)] == ids[i]
    decreases |ids|
  {
    var n := |ids| - 1;
    if i < n {
      BindAt(ids[..n], i);
      if Placeholder(i) == Placeholder(n) {
        PlaceholderInjective(i, n);
      }
    }
  }

  /** Only placeholders are bound. */
  lemma {:induction false} BindKeys(ids: seq<string>, k: string)
    requires k in Bind(ids)
    ensures exists i :: 0 <= i < |ids| && k == Placeholder(i)
    decreases |ids|
  {
    var n := |ids| - 1;
    if k != Placeholder(n) {
      BindKeys(ids[..n], k);
    }
  }

  /** One binding per id: no placeholder overwrites another. */
  lemma {:induction false} BindSize(ids: seq<string>)
    ensures |Bind(ids)| == |ids|
    decreases |ids|
  {
    if ids != [] {
      var n := |ids| - 1;
      BindSize(ids[..n]);
      if Placeholder(n) in Bind(ids[..n]) {
        BindKeys(ids[..n], Placeholder(n));
        var i :| 0 <= i < n && Placeholder(n) == Placeholder(i);
        PlaceholderInjective(n, i);
      }
    }
  }

  /** The scan's value bindings: the fixed type and status, then the placeholders. */
  function FeedValues(ids: seq<string>): map<string, string> {
    map[":type" := "post", ":status" := "active"] + Bind(ids)
  }

  /** The scan's filter text naming every placeholder. */
  function FeedFilter(ids: seq<string>): string {
    "#type = :type AND #status = :status AND userId IN (" + Join(Placeholders(|ids|), ",") + ")"
  }

  lemma {:induction false} JoinIncludes(parts: seq<string>, sep: string, i: nat)
    requires i < |parts|
    ensures Includes(Join(parts, sep), parts[i])
    decreases |parts|
  {
    if |parts| == 1 {
      assert OccursAt(parts[0], parts[0], 0);
    } else {
      var init, last := parts[..|parts| - 1], parts[|parts| - 1];
      var a := Join(init, sep);
      var whole := Join(parts, sep);
      assert whole == a + sep + last;
      if i == |parts| - 1 {
        IncludesMiddle(a + sep, last, "");
        assert a + sep + last + "" == whole;
      } else {
        JoinIncludes(init, sep, i);
        assert init[i] == parts[i];
        IncludesExtend("", a, sep + last, parts[i]);
        assert "" + a + (sep + last) == whole;
      }
    }
  }

  /** The fixed bindings survive: no placeholder is `:type` or `:status`. */
  lemma FeedFixedBindings(ids: seq<string>)
    ensures ":type" in FeedValues(ids) && FeedValues(ids)[":type"] == "post"
    ensures ":status" in FeedValues(ids) && FeedValues(ids)[":status"] == "active"
    ensures |FeedValues(ids)| == |ids| + 2
  {
    var b := Bind(ids);
    forall i: nat ensures Placeholder(i) != ":type" && Placeholder(i) != ":status" {
      assert Placeholder(i)[1] == 'u';
    }
    assert ":type" !in b && ":status" !in b by {
      if ":type" in b {
        BindKeys(ids, ":type");
      }
      if ":status" in b {
        BindKeys(ids, ":status");
      }
    }
    BindSize(ids);
    var fixed := map[":type" := "post", ":status" := "active"];
    assert FeedValues(ids).Keys == fixed.Keys + b.Keys;
    assert fixed.Keys !! b.Keys;
  }

  /**
   * Each placeholder is bound to its followed id, and an author matches
   * `userId IN (…)` exactly when it is a followed id.
   */
  lemma FeedPlaceholderBindings(ids: seq<string>)
    ensures forall i :: 0 <= i < |ids| ==>
      Placeholder(i) in FeedValues(ids) && FeedValues(ids)[Placeholder(i)] == ids[i]
    ensures forall u :: (exists i :: 0 <= i < |ids| && Placeholder(i) in FeedValues(ids)
                                     && FeedValues(ids)[Placeholder(i)] == u) <==> u in ids
  {
    forall i | 0 <= i < |ids|
      ensures Placeholder(i) in FeedValues(ids) && FeedValues(ids)[Placeholder(i)] == ids[i]
    {
      BindAt(ids, i);
    }
  }

  /** The filter text names every placeholder. */
  lemma FeedFilterNamesAll(ids: seq<string>, i: nat)
    requires i < |ids|
    ensures Includes(FeedFilter(ids), Placeholder(i))
  {
    var ps := Placeholders(|ids|);
    JoinIncludes(ps, ",", i);
    IncludesExtend("#type = :type AND #status = :status AND userId IN (", Join(ps, ","), ")", ps[i]);
  }

  function CreatedAt(p: PostItem): real { p.createdAt as real }

  datatype FeedOutcome = FeedOutcome(status: nat, posts: seq<PostItem>, message: string)

  /**
   * GET /feed: `following` are the ids the FOLLOWING# query returned and
   * `scanned` the posts the scan returned; the handler orders them newest first.
   */
  function Feed(userId: Option<string>, following: seq<string>, scanned: seq<PostItem>): (o: FeedOutcome)
    ensures !Truthy(userId) ==> o == FeedOutcome(400, [], "userId required")
    ensures Truthy(userId) && following == [] ==>
      o == FeedOutcome(200, [], "follow users to see their posts")
    ensures Truthy(userId) && following != [] ==>
      o.status == 200 && SortedDesc(o.posts, CreatedAt) && multiset(o.posts) == multiset(scanned)
  {
    if !Truthy(userId) then FeedOutcome(400, [], "userId required")
    else if following == [] then FeedOutcome(200, [], "follow users to see their posts")
    else FeedOutcome(200, SortDesc(scanned, CreatedAt), "")
  }
}
