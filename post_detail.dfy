// The post page: optimistic voting with revert, the save toggle and comment
// submission. Each handler takes the outcome of its API call as a parameter.

module PostDetail {
  import opened Common

  /** The signed-in user as the page sees it; either id may be absent. */
  datatype User = User(userId: Option<string>, id: Option<string>, username: string)

  /** The fields of the fetched post that the page reads. */
  datatype Post = Post(postId: string, title: string, score: Option<int>, userVote: Option<int>, isSaved: Option<bool>)

  datatype Comment = Comment(commentId: string, username: string, body: string)

  /** What each handler sends. */
  datatype VoteCall = VoteCall(postId: string, userId: Option<string>, vote: int)
  datatype SaveCall = SaveCall(postId: string, userId: Option<string>, saved: bool)
  datatype CommentCall = CommentCall(postId: string, body: string, userId: Option<string>, username: string)

  /** `x || 0` on a number that may be absent. */
  function OrZero(x: Option<int>): int {
    if x.Some? then x.value else 0
  }

  /** `user.userId || user.id`. */
  function AuthorId(u: User): Option<string> {
    if Truthy(u.userId) then u.userId else u.id
  }

  /** The new vote: pressing the button that is already active clears the vote. */
  function NextVote(current: int, voteType: int): int {
    if current == voteType then 0 else voteType
  }

  /** How much a vote adds to the score; the handler only adjusts for up and down votes. */
  function Contribution(vote: int): int {
    if vote == 1 then 1 else if vote == -1 then -1 else 0
  }

  /** The optimistic score: the old vote's contribution removed and the new one's added. */
  function Rescored(score: int, current: int, newVote: int): int {
    score - Contribution(current) + Contribution(newVote)
  }

  predicate IsVote(v: int) { v == -1 || v == 0 || v == 1 }

  /** `localScore - userVote` is the same before and after a click. */
  lemma ScoreLessVoteInvariant(score: int, current: int, voteType: int)
    requires IsVote(current) && (voteType == 1 || voteType == -1)
    ensures IsVote(NextVote(current, voteType))
    ensures Rescored(score, current, NextVote(current, voteType)) - NextVote(current, voteType) == score - current
  {
  }

  /**
   * Pressing the same button twice restores the vote and the score, unless
   * the first press switched from the opposite vote: then the vote ends
   * cleared and the score one step toward the pressed button.
   */
  lemma SameButtonTwice(score: int, current: int, voteType: int)
    requires IsVote(current) && (voteType == 1 || voteType == -1)
    ensures var v1 := NextVote(current, voteType);
      var s1 := Rescored(score, current, v1);
      var v2 := NextVote(v1, voteType);
      var s2 := Rescored(s1, v1, v2);
      (current != -voteType ==> v2 == current && s2 == score)
      && (current == -voteType ==> v2 == 0 && s2 == score + voteType)
  {
  }

  class View {
    const postId: string
    const user: Option<User>
    var post: Option<Post>
    var comments: seq<Comment>
    var commentText: string
    var localScore: int
    var userVote: int
    var isSaved: bool
    /** The last route the page navigated to. */
    var navigatedTo: Option<string>

    /**
     * Loading: a missing post, or a failed comment fetch, sends the reader
     * home; the vote state comes from the post, with absent fields read as 0
     * or false.
     */
    constructor (postId: string, user: Option<User>, fetched: Option<Post>, fetchedComments: Option<seq<Comment>>)
      ensures this.postId == postId && this.user == user && commentText == ""
      ensures post == fetched
      ensures fetched.None? ==> localScore == 0 && userVote == 0 && !isSaved
      ensures fetched.Some? ==>
        localScore == OrZero(fetched.value.score) && userVote == OrZero(fetched.value.userVote)
        && isSaved == (fetched.value.isSaved == Some(true))
      ensures comments == if fetched.Some? && fetchedComments.Some? then fetchedComments.value else []
      ensures navigatedTo == if fetched.Some? && fetchedComments.Some? then None else Some("/")
    {
      this.postId := postId;
      this.user := user;
      commentText := "";
      comments := [];
      localScore := 0;
      userVote := 0;
      isSaved := false;
      post := fetched;
      navigatedTo := None;
      if fetched.None? {
        navigatedTo := Some("/");
      } else {
        var p := fetched.value;
        localScore := OrZero(p.score);
        userVote := OrZero(p.userVote);
        isSaved := p.isSaved == Some(true);
        if fetchedComments.None? {
          navigatedTo := Some("/");
        } else {
          comments := fetchedComments.value;
        }
      }
    }

    /** The comment box's `onChange`. */
    method EditComment(text: string)
      modifies this
      ensures commentText == text
      ensures post == old(post) && comments == old(comments) && localScore == old(localScore)
      ensures userVote == old(userVote) && isSaved == old(isSaved) && navigatedTo == old(navigatedTo)
    {
      commentText := text;
    }

    /**
     * `handleVote`: without a user, only navigate to login. Otherwise apply
     * the new vote and score at once, send the vote, and put both back if
     * the call fails.
     */
    method Vote(voteType: int, succeeded: bool) returns (sent: Option<VoteCall>)
      requires voteType == 1 || voteType == -1
      modifies this
      ensures user.None? ==>
        sent.None? && navigatedTo == Some("/login")
        && localScore == old(localScore) && userVote == old(userVote)
      ensures user.Some? ==>
        sent == Some(VoteCall(postId, user.value.userId, NextVote(old(userVote), voteType)))
        && navigatedTo == old(navigatedTo)
      ensures user.Some? && succeeded ==>
        userVote == NextVote(old(userVote), voteType)
        && localScore == Rescored(old(localScore), old(userVote), userVote)
      ensures user.Some? && !succeeded ==> localScore == old(localScore) && userVote == old(userVote)
      ensures post == old(post) && comments == old(comments) && commentText == old(commentText)
      ensures isSaved == old(isSaved)
    {
      if user.None? {
        navigatedTo := Some("/login");
        return None;
      }
      var currentVote := userVote;
      var newVote := if currentVote == voteType then 0 else voteType;
      var newScore := localScore;
      if currentVote == 1 { newScore := newScore - 1; }
      if currentVote == -1 { newScore := newScore + 1; }
      if newVote == 1 { newScore := newScore + 1; }
      if newVote == -1 { newScore := newScore - 1; }
      var before := localScore;
      localScore := newScore;
      userVote := newVote;
      sent := Some(VoteCall(postId, user.value.userId, newVote));
      if !succeeded {
        localScore := before;
        userVote := currentVote;
      }
    }

    /** `handleSave`: flip at once, flip back if the call fails. */
    method Save(succeeded: bool) returns (sent: Option<SaveCall>)
      modifies this
      ensures user.None? ==> sent.None? && navigatedTo == Some("/login") && isSaved == old(isSaved)
      ensures user.Some? ==>
        sent == Some(SaveCall(postId, user.value.userId, !old(isSaved)))
        && isSaved == (if succeeded then !old(isSaved) else old(isSaved))
        && navigatedTo == old(navigatedTo)
      ensures post == old(post) && comments == old(comments) && commentText == old(commentText)
      ensures localScore == old(localScore) && userVote == old(userVote)
    {
      if user.None? {
        navigatedTo := Some("/login");
        return None;
      }
      var newState := !isSaved;
      isSaved := newState;
      sent := Some(SaveCall(postId, user.value.userId, newState));
      if !succeeded {
        isSaved := !newState;
      }
    }

    /**
     * `handleComment`: nothing is sent without a user (who is sent to login)
     * or for blank text. A comment that is accepted clears the box and the
     * list is replaced by the re-fetched one when that fetch succeeds.
     */
    method SubmitComment(succeeded: bool, refetched: Option<seq<Comment>>) returns (sent: Option<CommentCall>)
      modifies this
      ensures user.None? ==> sent.None? && navigatedTo == Some("/login")
      ensures user.Some? && IsBlank(old(commentText)) ==> sent.None?
      ensures user.Some? && !IsBlank(old(commentText)) ==>
        sent == Some(CommentCall(postId, old(commentText), AuthorId(user.value), user.value.username))
      ensures user.Some? ==> navigatedTo == old(navigatedTo)
      ensures commentText == if sent.Some? && succeeded then "" else old(commentText)
      ensures comments == if sent.Some? && succeeded && refetched.Some? then refetched.value else old(comments)
      ensures post == old(post) && localScore == old(localScore)
      ensures userVote == old(userVote) && isSaved == old(isSaved)
    {
      if user.None? {
        navigatedTo := Some("/login");
        return None;
      }
      if IsBlank(commentText) {
        return None;
      }
      var u := user.value;
      sent := Some(CommentCall(postId, commentText, if Truthy(u.userId) then u.userId else u.id, u.username));
      if succeeded {
        commentText := "";
        if refetched.Some? {
          comments := refetched.value;
        }
      }
    }
  }
}
