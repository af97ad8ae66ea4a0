// The community page: who counts as the creator, and the join/leave button
// with its optimistic member count.

module CommunityDetail {
  import opened Common

  /** The signed-in user as the page sees it; either id may be absent. */
  datatype User = User(userId: Option<string>, id: Option<string>)

  /** The community record the page shows; an absent field is `None`. */
  datatype Community = Community(name: string, creatorId: Option<string>, memberCount: int, isMember: Option<bool>)

  /** How the join/leave call and the re-fetch that follows it went. */
  datatype Outcome =
    | ActionFailed
    | RefetchFailed
    | Refetched(community: Community, isMember: Option<bool>)

  datatype Action = Join | Leave

  datatype MembershipCall = MembershipCall(action: Action, communityName: string, userId: Option<string>)

  /** The state the button changes. */
  datatype View = View(community: Community, isMember: bool)

  /**
   * `isCreator` as written: a user, a community, and either of the user's
   * ids equal to `creatorId`, where two absent values compare equal.
   */
  predicate IsCreator(user: Option<User>, community: Option<Community>) {
    user.Some? && community.Some?
    && (user.value.userId == community.value.creatorId || user.value.id == community.value.creatorId)
  }

  /**
   * Community records carry no `creatorId`, and signed-in users carry a
   * `userId` but no `id`: every such user is taken for the creator.
   */
  lemma EveryUserIsCreator(userId: string, community: Community)
    requires community.creatorId.None?
    ensures IsCreator(Some(User(Some(userId), None)), Some(community))
  {
  }

  /** `isCreator` with an absent id never matching. */
  predicate IsCreatorCorrected(user: Option<User>, community: Option<Community>) {
    user.Some? && community.Some? && community.value.creatorId.Some?
    && (user.value.userId == community.value.creatorId || user.value.id == community.value.creatorId)
  }

  /** Only a user holding the recorded creator id is the creator; otherwise the two agree. */
  lemma CreatorCorrected(user: Option<User>, community: Option<Community>)
    ensures IsCreatorCorrected(user, community) <==>
      user.Some? && community.Some?
      && exists u :: u in {user.value.userId, user.value.id} && u.Some? && u == community.value.creatorId
    ensures community.Some? && community.value.creatorId.Some? ==>
      (IsCreatorCorrected(user, community) <==> IsCreator(user, community))
  {
    if IsCreatorCorrected(user, community) {
      if user.value.userId == community.value.creatorId {
        assert user.value.userId in {user.value.userId, user.value.id};
      } else {
        assert user.value.id in {user.value.userId, user.value.id};
      }
    }
  }

  /** The optimistic step: flip membership and move the count by one. */
  function Optimistic(v: View): (r: View)
    ensures r.isMember == !v.isMember
    ensures r.community == v.community.(memberCount := r.community.memberCount)
    ensures r.community.memberCount - v.community.memberCount == if v.isMember then -1 else 1
  {
    View(v.community.(memberCount := v.community.memberCount + (if v.isMember then -1 else 1)), !v.isMember)
  }

  /**
   * `handleJoinLeave` as written: on success the re-fetched community is
   * shown and the membership is the server's flag or the new state; on any
   * failure the membership is restored but the count keeps its optimistic
   * value.
   */
  function AfterJoinLeave(v: View, outcome: Outcome): View {
    match outcome
    case Refetched(c, m) => View(c, m == Some(true) || !v.isMember)
    case _ => View(Optimistic(v).community, v.isMember)
  }

  /** After a join fails, the page still shows one member more than before. */
  lemma FailedJoinKeepsCount(v: View)
    requires !v.isMember
    ensures AfterJoinLeave(v, ActionFailed).isMember == v.isMember
    ensures AfterJoinLeave(v, ActionFailed).community.memberCount == v.community.memberCount + 1
    ensures AfterJoinLeave(v, ActionFailed) != v
  {
  }

  /** A successful join always ends as a member; a successful leave ends with the server's flag. */
  lemma RefetchedMembership(v: View, c: Community, m: Option<bool>)
    ensures !v.isMember ==> AfterJoinLeave(v, Refetched(c, m)).isMember
    ensures v.isMember ==> (AfterJoinLeave(v, Refetched(c, m)).isMember <==> m == Some(true))
  {
  }

  /** The handler with the revert the failure path intends: the whole view is restored. */
  function AfterJoinLeaveCorrected(v: View, outcome: Outcome): View {
    match outcome
    case Refetched(c, m) => View(c, m == Some(true) || !v.isMember)
    case _ => v
  }

  /** A failed call leaves nothing changed; a successful one matches the handler as written. */
  lemma CorrectedRevert(v: View, outcome: Outcome)
    ensures !outcome.Refetched? ==> AfterJoinLeaveCorrected(v, outcome) == v
    ensures outcome.Refetched? ==> AfterJoinLeaveCorrected(v, outcome) == AfterJoinLeave(v, outcome)
  {
  }

  class Page {
    const communityName: string
    const authenticated: bool
    const userId: Option<string>
    var community: Option<Community>
    var isMember: bool
    var navigatedTo: Option<string>

    /**
     * Loading fetches the community and its posts together; if either
     * fails or no community comes back, the reader is sent to the list.
     */
    constructor (communityName: string, authenticated: bool, userId: Option<string>,
                 fetched: Option<Community>, postsLoaded: bool)
      ensures this.communityName == communityName && this.authenticated == authenticated && this.userId == userId
      ensures fetched.Some? && postsLoaded ==>
        community == fetched && isMember == (fetched.value.isMember == Some(true)) && navigatedTo.None?
      ensures !(fetched.Some? && postsLoaded) ==> community.None? && !isMember && navigatedTo == Some("/communities")
    {
      this.communityName := communityName;
      this.authenticated := authenticated;
      this.userId := userId;
      community := None;
      isMember := false;
      navigatedTo := None;
      if fetched.Some? && postsLoaded {
        community := fetched;
        isMember := fetched.value.isMember == Some(true);
      } else {
        navigatedTo := Some("/communities");
      }
    }

    /** The join/leave button, shown once a community is loaded. */
    method JoinLeave(outcome: Outcome) returns (sent: Option<MembershipCall>)
      requires community.Some?
      modifies this
      ensures !authenticated ==>
        sent.None? && navigatedTo == Some("/login") && community == old(community) && isMember == old(isMember)
      ensures authenticated ==>
        sent == Some(MembershipCall(if old(isMember) then Leave else Join, communityName, userId))
        && navigatedTo == old(navigatedTo)
        && community.Some?
        && View(community.value, isMember) == AfterJoinLeave(View(old(community.value), old(isMember)), outcome)
    {
      if !authenticated {
        navigatedTo := Some("/login");
        return None;
      }
      var originalState := isMember;
      isMember := !originalState;
      var prev := community.value;
      community := Some(prev.(memberCount := prev.memberCount + (if originalState then -1 else 1)));
      sent := Some(MembershipCall(if originalState then Leave else Join, communityName, userId));
      match outcome {
        case Refetched(c, m) =>
          community := Some(c);
          isMember := m == Some(true) || !originalState;
        case _ =>
          isMember := originalState;
          community := Some(community.value.(memberCount := community.value.memberCount));
      }
    }
  }
}
