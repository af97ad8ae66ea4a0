// The post card in a feed: voting against the post's own score, the
// save toggle that waits for the server, and the body excerpt.

module PostCard {
  import opened Common

  /** The fields of the `post` prop the handlers read. */
  datatype Post = Post(postId: string, score: int, body: string)

  datatype VoteCall = VoteCall(postId: string, userId: Option<string>, vote: int)
  datatype SaveCall = SaveCall(postId: string, userId: Option<string>)

  /** The vote before any click is `null`; pressing the active button clears it. */
  function NextVote(current: Option<int>, voteType: int): int {
    if current == Some(voteType) then 0 else voteType
  }

  /** The score shown after a click, always computed from the prop's `score`. */
  function ShownScore(score: int, current: Option<int>, newVote: int): int {
    if newVote == 1 then score + (if current == Some(-1) then 2 else 1)
    else if newVote == -1 then score - (if current == Some(1) then 2 else 1)
    else score + (if current == Some(1) then -1 else 1)
  }

  /**
   * The three formulas amount to: the prop's score, less the previous vote,
   * plus the new one (no vote counting as 0).
   */
  lemma ShownScoreSwapsVotes(score: int, current: Option<int>, voteType: int)
    requires current in {None, Some(0), Some(1), Some(-1)}
    requires voteType == 1 || voteType == -1
    ensures var v := NextVote(current, voteType);
      ShownScore(score, current, v) == score - (if current.Some? then current.value else 0) + v
  {
  }

  /**
   * Because the prop does not change between clicks, up-voting and then
   * pressing up again shows one less than the prop, not the prop itself.
   */
  lemma UpThenUndoShowsOneLess(score: int)
    ensures ShownScore(score, None, NextVote(None, 1)) == score + 1
    ensures NextVote(Some(NextVote(None, 1)), 1) == 0
    ensures ShownScore(score, Some(1), NextVote(Some(1), 1)) == score - 1
  {
  }

  /** The body shown on the card: at most 300 characters, then `...`. */
  function Excerpt(body: string): (r: string)
    ensures |body| <= 300 ==> r == body
    ensures |body| > 300 ==> |r| == 303 && StartsWith(body, r[..300]) && EndsWith(r, "...")
  {
    if |body| > 300 then body[..300] + "..." else body
  }

  class Card {
    const post: Post
    const userId: Option<Option<string>>
    var userVote: Option<int>
    var localScore: int
    var isSaved: bool
    var navigatedTo: Option<string>

    /** `userId` is `None` when nobody is signed in, else the user's `userId`, which may be absent. */
    constructor (post: Post, userId: Option<Option<string>>)
      ensures this.post == post && this.userId == userId
      ensures userVote.None? && localScore == post.score && !isSaved && navigatedTo.None?
    {
      this.post := post;
      this.userId := userId;
      userVote := None;
      localScore := post.score;
      isSaved := false;
      navigatedTo := None;
    }

    /**
     * `handleVote`: set the new vote and the score derived from the prop,
     * send the vote, and on failure put the vote back and show the prop's
     * score.
     */
    method Vote(voteType: int, succeeded: bool) returns (sent: Option<VoteCall>)
      requires voteType == 1 || voteType == -1
      modifies this
      ensures userId.None? ==>
        sent.None? && navigatedTo == Some("/login")
        && userVote == old(userVote) && localScore == old(localScore)
      ensures userId.Some? ==>
        sent == Some(VoteCall(post.postId, userId.value, NextVote(old(userVote), voteType)))
        && navigatedTo == old(navigatedTo)
      ensures userId.Some? && succeeded ==>
        userVote == Some(NextVote(old(userVote), voteType))
        && localScore == ShownScore(post.score, old(userVote), NextVote(old(userVote), voteType))
      ensures userId.Some? && !succeeded ==> userVote == old(userVote) && localScore == post.score
      ensures isSaved == old(isSaved)
    {
      if userId.None? {
        navigatedTo := Some("/login");
        return None;
      }
      var newVote := if userVote == Some(voteType) then 0 else voteType;
      var previous := userVote;
      userVote := Some(newVote);
      if newVote == 1 {
        localScore := post.score + (if previous == Some(-1) then 2 else 1);
      } else if newVote == -1 {
        localScore := post.score - (if previous == Some(1) then 2 else 1);
      } else {
        localScore := post.score + (if previous == Some(1) then -1 else 1);
      }
      sent := Some(VoteCall(post.postId, userId.value, newVote));
      if !succeeded {
        userVote := previous;
        localScore := post.score;
      }
    }

    /** `handleSave`: the flag flips only once the server has accepted the call. */
    method Save(succeeded: bool) returns (sent: Option<SaveCall>)
      modifies this
      ensures userId.None? ==> sent.None? && navigatedTo == Some("/login") && isSaved == old(isSaved)
      ensures userId.Some? ==>
        sent == Some(SaveCall(post.postId, userId.value)) && navigatedTo == old(navigatedTo)
        && isSaved == (if succeeded then !old(isSaved) else old(isSaved))
      ensures userVote == old(userVote) && localScore == old(localScore)
    {
      if userId.None? {
        navigatedTo := Some("/login");
        return None;
      }
      sent := Some(SaveCall(post.postId, userId.value));
      if succeeded {
        isSaved := !isSaved;
      }
    }
  }
}
