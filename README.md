# BuChat core, modelled in Dafny

BuChat is a Reddit-style platform: a set of stateless HTTP handlers over one key-value table, plus a React client. The handlers cover users, posts, communities, social features and messaging, AI-assisted ranking, and media upload signing. This project models the parts of those handlers and client components that make decisions:

- **validation chains and store writes**: each handler becomes a function from the request fields and a snapshot of the store to a status and the new store;
- **first-match route dispatch**: each handler's if-chain becomes a function from the request shape to a route;
- **scoring, ranking and counting**: the list pipelines of the AI and posts handlers;
- **key, id and text derivation**: conversation ids, S3 keys, the HLS playlists, the multipart part list;
- **the client's optimistic state machines**: classes whose fields are the component state, with one method per handler that takes the outcome of its API call as a parameter.

Modules, one per source file:

- `Common` (common.dfy): `Option`, `Reply`, JavaScript truthiness, string predicates (`startsWith`, `endsWith`, `includes`), case mapping, `slice(0, limit)`, a stable descending sort, counting maps, de-duplication.
- `Ai` (ai.dfy): auto-tag selection, similarity recommendations, community discovery, the interest profile and personalised feed, trending topics, the spam check, route order.
- `Posts` (posts.dfy): media normalisation, post type, create/edit/soft-delete, list sorts, the trending window, route order.
- `Users` (users.dfy): register, login, verify, resend, forgot and reset password, profile read and update, route order.
- `Social` (social.dfy): follow/unfollow, block/unblock, conversation ids, messages, unread counts, sharing, crossposts, the following feed.
- `Communities` (communities.dfy): create, join/leave counters, flairs, rules and widgets, the settings update builder, route order.
- `Presign` (presign.dfy): media classification and size limits, upload keys, the HLS master and quality playlists, multipart part lists.
- `PostDetail` (post_detail.dfy): the post page: vote, save, comment.
- `PostCard` (post_card.dfy): the feed card: vote, save, body excerpt.
- `CreateCommunityModal` (create_community_modal.dfy): the four-step community wizard.
- `CommunityDetail` (community_detail.dfy): the community page: the creator check, join/leave.
- `Sidebar` (sidebar.dfy): active-link matching and the collapsible sections.

Conventions:
- **The store** is a record of maps keyed as the table's partition and sort keys are.
- **SDK results are parameters.** Password comparison, hashes, signed URLs, key phrases and entities, URL encoding and the hot-rank decay arrive as values or function parameters.
- **Time** is integer milliseconds.
- **Generated ids and codes** (uuids, random codes) are parameters.
- **Absence.** A field the handler checks with `||` or `!x` is an `Option<string>` checked with `Truthy`. A field checked with `!== undefined` is an `Option` checked with `Some?`.
- **Joined communities** reach the personalised feed and the community recommendations as a list parameter. The list stands for the corrected membership lookup: as written, that lookup finds nothing (see Findings).

**Where the design description and the code disagree, the model follows the code.**
- The interest profile counts every tag occurrence, so a tag repeated within one interaction counts twice (backend/src/ai/app.js:483-485).
- Trending-topic counting does not filter on status, so tags of deleted posts count (backend/src/ai/app.js:644-662).

## Model

| member | source | states |
|---|---|---|
| Ai.LowerAll | backend/src/ai/app.js:69 | each tag is the lower-cased text, one per input, in order |
| Ai.PhraseTags | backend/src/ai/app.js:67-70 | at most five tags, each the lower-cased text of a key phrase scored above 0.8 |
| Ai.EntityTags | backend/src/ai/app.js:72-75 | at most three tags, each the lower-cased text of a person, location, organisation or event entity scored above 0.8 |
| Ai.SuggestedTags | backend/src/ai/app.js:77 | at most eight distinct lower-case tags, exactly the phrase and entity tags, the first phrase tag first |
| Ai.AutoTag | backend/src/ai/app.js:34-99 | 404 without the post and 500 when the analysis fails, both leaving the store and the auto-tagged set alone; otherwise the suggested tags, written as the post's tags with nothing else in the store changed, and the post added to the auto-tagged set |
| Ai.UpvotedIds | backend/src/ai/app.js:227-229 | an id is listed iff some vote on it is an up vote |
| Ai.CommonTagCount | backend/src/ai/app.js:292 | the shared tags never outnumber the post's tags |
| Ai.SimilarityScore | backend/src/ai/app.js:289-306 | apart from the logarithmic term, at least 3 per shared tag and at most 3 per tag plus 7 |
| Ai.RankSimilar | backend/src/ai/app.js:286-310 | only unseen candidates, each with its similarity score, highest first, at most `limit`; an unseen candidate left out scores no higher than any kept one, and fewer than `limit` kept means none was left out |
| Ai.ScoreUnseen | backend/src/ai/app.js:286-308 | every scored post is an unseen candidate carrying its own similarity score, and every unseen candidate is scored |
| Ai.Recommend | backend/src/ai/app.js:206-321 | 400 without a userId; for a user with no up votes the top `limit` active posts by score; otherwise the top `limit` unseen active posts by similarity to the tags and communities of the first ten up-voted posts, with at most five tags reported |
| Ai.TrendingActive | backend/src/ai/app.js:231-251 | for a user without up votes: active posts only, highest score first, at most `limit`; an active post left out scores no higher than any kept one, and fewer than `limit` kept means none was left out |
| Ai.PersonalizedFor | backend/src/ai/app.js:254-320 | for a returning user: the first five profile tags and the profile communities of the first ten up-voted posts are reported, and the posts are the top `limit` unseen active posts by similarity to that profile |
| Ai.DiscoverScore | backend/src/ai/app.js:355-363 | twice the posts plus the members, plus 10 for a community younger than 30 days |
| Ai.Discover | backend/src/ai/app.js:324-375 | only communities the user has not joined, each with its score, highest first, at most `limit`; an unjoined community left out scores no higher than any listed one, and fewer than `limit` listed means none was left out; without a user nothing is excluded |
| Ai.ScoreOpen | backend/src/ai/app.js:352-366 | every scored community is one the user has not joined, with its discovery score, and every unjoined community is scored |
| Ai.RecommendCommunities | backend/src/ai/app.js:572-627 | 400 without a userId, an empty list for any type but communities, else unjoined communities by member count, highest first, at most `limit`; one left out has no more members than any listed one, and fewer than `limit` listed means none was left out |
| Ai.BumpTags | backend/src/ai/app.js:483-485 | the map afterwards counts the tags seen so far plus these tags |
| Ai.BuildInterestMap | backend/src/ai/app.js:477-487 | the loop computes the interest profile of the interaction history |
| Ai.InterestWeight | backend/src/ai/app.js:477-487 | each key's weight is the interactions in that community plus that tag's occurrences; a key is present iff that sum is positive |
| Ai.InterestTotal | backend/src/ai/app.js:477-487 | the weights add up to the community-bearing interactions plus all tag occurrences |
| Ai.InterestOrderIndependent | backend/src/ai/app.js:478 | the profile does not depend on the order the scan returned the interactions in |
| Ai.CommunityTerm | backend/src/ai/app.js:510-512 | zero outside joined communities, else 40/10 times the community's weight or 1 |
| Ai.TagTerm | backend/src/ai/app.js:515-520 | between 0 and 30, and 30 once the tag weights reach 30 |
| Ai.EngagementTerm | backend/src/ai/app.js:523-528 | at most 20, negative when down votes outweigh the rest |
| Ai.RecencyTerm | backend/src/ai/app.js:531 | between 0 and 10, zero exactly from ten days of age |
| Ai.PersonalizedScoreFacts | backend/src/ai/app.js:505-541 | for a post not dated after `now`: the raw score is bounded by the community term plus 60, and it is halved for posts already interacted with |
| Ai.PersonalizedFeed | backend/src/ai/app.js:441-569 | 400 without a userId; otherwise active scanned posts, each with its personalised score, ordered by that score plus the hot term, at most `limit`; an active post left out ranks no higher than any kept one, and fewer than `limit` kept means none was left out |
| Ai.JoinedLookupFindsNothing | backend/src/ai/app.js:465-473 | with every membership record keyed `COMM#{name}`, as joining writes it, the feed's `USER#`/`MEMBER#` lookup finds no community and the community term is zero for every post |
| Ai.JoinedLookupCorrected | backend/src/communities/app.js:144-149 | after a join, the `GSI1` `USER#`/`JOINED#` lookup lists the community, so its posts earn a community term of at least 4 |
| Ai.CommunityRecommendationsShadowed | backend/src/ai/app.js:206 | every GET on exactly `/recommendations` is answered by the post recommender, whatever its `type` |
| Ai.CorrectedRecommendationRoutes | backend/src/ai/app.js:206-572 | with `type=communities` sent to the community branch, that request reaches it, and every other request is routed as before |
| Ai.TopicWindow | backend/src/ai/app.js:635-641 | a window exists exactly for hour, day and week |
| Ai.Newer | backend/src/ai/app.js:644-652 | a post is kept iff it was created after the window start |
| Ai.CountTags | backend/src/ai/app.js:655-662 | the counts tally every tag occurrence, one entry per distinct tag, keyed in first-occurrence order |
| Ai.TopicsComplete | backend/src/ai/app.js:665-668 | with a limit covering every distinct tag, every tag is ranked |
| Ai.TrendingTopics | backend/src/ai/app.js:630-680 | 500 for an unknown timeframe; otherwise tags of newer posts with their exact counts, most frequent first, at most `limit`; a tag left out is no more frequent than any ranked one, and all tags are ranked when the limit allows |
| Ai.RankTopics | backend/src/ai/app.js:665-668 | from the counted tags: exact counts, most frequent first, at most `limit`; a tag left out is no more frequent than any ranked one, and every tag is present when the limit allows |
| Ai.RatioAbove | backend/src/ai/app.js:694 | a capitals ratio above 0.6 is five capitals exceeding three times the length |
| Ai.Indicators | backend/src/ai/app.js:693-699 | capitals fire when they exceed three fifths of the text, links when more than three `http://` or `https://` matches occur, emoticons when more than ten U+1F600 to U+1F64F characters occur, short-with-links when under 50 characters hold a link, repeated characters when five equal ones run together |
| Ai.CountEmojiAppend | backend/src/ai/app.js:696 | the emoticon count of two texts joined is the sum of their counts |
| Ai.SpamCheck | backend/src/ai/app.js:683-718 | 400 without text; the score is the share of the five indicators that fire and spam means three or more |
| Posts.NormalizeOne | backend/src/posts/app.js:59-73 | the type defaults to image, the thumbnail to the media URL and the caption to empty; the URL is kept |
| Posts.NormalizeMedia | backend/src/posts/app.js:56 | no media gives an empty list; otherwise one normalised item per input, in order |
| Posts.PostType | backend/src/posts/app.js:77-88 | text exactly when no item has a known type, video whenever a video is present, image when an image or gif is present without a video, audio when audio is present without video, image or gif, link when a document is present without any of those |
| Posts.UntypedMediaIsImage | backend/src/posts/app.js:60 | media sent without types makes an image post |
| Posts.NewPostDefaults | backend/src/posts/app.js:90-121 | a new post starts with zero counters, active, unedited, created and updated now, with empty body and tags when absent |
| Posts.CreatePost | backend/src/posts/app.js:32-142 | 400 without a title, then 400 without a userId; 201 stores the post and adds one to that community's post count only |
| Posts.BuildEdit | backend/src/posts/app.js:174-189 | updatedAt and edited always come first; title only when truthy, body whenever given, tags when given; every clause has its value |
| Posts.EditPost | backend/src/posts/app.js:145-204 | 400 without a userId, 404 for a missing post, 403 for another author; 200 exactly for the author, changing only the edited fields |
| Posts.DeletePost | backend/src/posts/app.js:206-266 | 400, 404 and 403 leave the store alone; 200 exactly when the caller owns the post, which is then soft-deleted with one taken from its community's post count only |
| Posts.CreateThenDelete | backend/src/posts/app.js:125-133 | creating then deleting a post leaves the community's post count where it was and the post marked deleted |
| Posts.ControversyZero | backend/src/posts/app.js:304 | a post with no up votes or no down votes has zero controversy |
| Posts.ControversyBalanced | backend/src/posts/app.js:304 | an evenly split post is at least as controversial as any post with no more votes |
| Posts.ListPosts | backend/src/posts/app.js:291-308 | exactly the active items, kept in store order for new, ordered by score, controversy or hot rank for the other sorts |
| Posts.TrendWindow | backend/src/posts/app.js:398-402 | a window exists exactly for day, week and month, of 1, 7 and 30 days |
| Posts.RecentPosts | backend/src/posts/app.js:419-420 | a post is kept iff it is active and younger than the window |
| Posts.TrendingPosts | backend/src/posts/app.js:393-434 | none for an unknown timeframe; otherwise recent active posts by trend score, highest first, at most `limit`; a recent post left out trends no higher than any kept one, and fewer than `limit` kept means none was left out |
| Posts.PutIsAlwaysEdit | backend/src/posts/app.js:145 | every PUT with a post id is handled as an edit |
| Posts.DeadPostRoutes | backend/src/posts/app.js:145-807 | the flair, media-update and unsave branches are never reached |
| Posts.MediaGetShadowed | backend/src/posts/app.js:321 | GET on a post's media is answered by the single-post branch |
| Posts.UnsaveDeletesPost | backend/src/posts/app.js:206 | DELETE on /posts/{id}/save is handled as deleting the post |
| Posts.CorrectedRoutesReachable | backend/src/posts/app.js:437-797 | with the specific branches first, unsave, flair, media update and media GET are each reached |
| Posts.CorrectedAgreesOnPlainRequests | backend/src/posts/app.js:32-807 | on paths without save, flair or media the corrected dispatch agrees with the original |
| Users.NewUserDefaults | backend/src/users/app.js:153-177 | a new account is local and unverified with zero karma and counters, the username as display name by default, and a verification code valid for 24 hours |
| Users.Register | backend/src/users/app.js:97-206 | 400 for a missing field or a password under 8 characters, 409 for a taken username or email; 201 exactly otherwise, storing the new user and nothing else |
| Users.LoginView | backend/src/users/app.js:259-260 | the login reply drops the password and verification code and keeps every other field, the reset code included |
| Users.Login | backend/src/users/app.js:209-267 | 400 without both fields; 401 for an unknown user, a non-local account, no stored password or a wrong password; otherwise the user without password and verification code |
| Users.LoginHidesUnknownUser | backend/src/users/app.js:226-252 | an unknown username and a wrong password get the same reply |
| Users.LoginLeaksResetCode | backend/src/users/app.js:259-265 | a successful login returns a pending reset code |
| Users.PublicView | backend/src/users/app.js:674-676 | the profile view drops the password, verification code and reset code and keeps the rest |
| Users.LoginCorrected | backend/src/users/app.js:259-265 | succeeds exactly when the original does, returns the public view, and fails identically otherwise |
| Users.Verify | backend/src/users/app.js:380-453 | 400 without fields, 404 for an unknown email, 400 when already verified, for a wrong code or an expired one; 200 marks the user verified and clears the code, changing nothing else |
| Users.VerifyOnce | backend/src/users/app.js:411-440 | a second verification of the same account, which the email scan finds again, is refused as already verified |
| Users.Resend | backend/src/users/app.js:456-515 | 400 without email, 404 for an unknown one, 400 when verified; 200 stores a new code valid for 24 hours |
| Users.Forgot | backend/src/users/app.js:518-578 | 400 without email; an unknown email gets the same 200 as a known one; a Google account gets 400; a local account gets a reset code valid for an hour |
| Users.ForgotHidesUnknownEmail | backend/src/users/app.js:538-576 | known and unknown emails get the same status and message |
| Users.Reset | backend/src/users/app.js:581-654 | 400 for missing fields, a short password, a wrong or expired code, 404 for an unknown email; 200 stores the new hash and clears the code, changing nothing else |
| Users.ResetOnce | backend/src/users/app.js:619-641 | a reset code works only once; the email scan finds the updated account again |
| Users.GetProfile | backend/src/users/app.js:657-683 | 404 for an unknown user, otherwise the public view |
| Users.ProfileClauseFields | backend/src/users/app.js:692-718 | updatedAt is always set first; display name, avatar, banner, location and website only when truthy, bio whenever given |
| Users.ProfileValueFields | backend/src/users/app.js:692-718 | `:now` is always bound to the request time; each other field is bound exactly when its clause is present, to the supplied text |
| Users.BuildProfileUpdate | backend/src/users/app.js:692-718 | starting from the `:now` binding, the push sequence builds exactly the specified clauses and values |
| Users.Supply | backend/src/users/app.js:692-718 | one conditional step appends the field and binds its value exactly when the field is given |
| Users.ApplyProfile | backend/src/users/app.js:720-725 | only updatedAt, set to the bound time, and the fields with bound text change |
| Users.UpdateProfile | backend/src/users/app.js:686-728 | 200; the profile fields replaced where supplied and the rest kept; an unknown username gains a record holding only the supplied fields; no other user changes |
| Users.PutIsProfileUpdate | backend/src/users/app.js:686 | every PUT with a username is handled as a profile update |
| Users.SubresourceGetsShadowed | backend/src/users/app.js:657 | GET on preferences, karma or trophies of a user is answered with the profile |
| Users.DeadUserRoutes | backend/src/users/app.js:686-880 | the preferences update is never reached, and the preference, karma and trophy reads only off user paths |
| Users.CorrectedUserRoutesReachable | backend/src/users/app.js:731-892 | with the specific branches first, preferences, karma and trophies are each reached |
| Users.CorrectedUserAgrees | backend/src/users/app.js:97-926 | on other paths the corrected dispatch agrees with the original |
| Social.Follow | backend/src/social/app.js:32-81 | 400 without a userId, 404 for an unknown target, 409 when the edge exists; 200 exactly otherwise, adding only that follow edge |
| Social.Unfollow | backend/src/social/app.js:84-111 | 400 without a userId, 404 for an unknown target; otherwise 200 and the edge removed whether or not it existed |
| Social.FollowTwiceConflicts | backend/src/social/app.js:52-62 | following the same user a second time is refused with 409 |
| Social.FollowThenUnfollow | backend/src/social/app.js:32-111 | a fresh follow undone by an unfollow restores the store |
| Social.FollowIgnoresBlocks | backend/src/social/app.js:32-81 | following does not consult blocks: a blocked user can still be followed |
| Social.Block | backend/src/social/app.js:509-556 | 400 without a userId, 404 for an unknown target; otherwise the block record is stored and the follow edges in both directions are removed, nothing else changing |
| Social.Unblock | backend/src/social/app.js:559-585 | 400 without a userId, 404 for an unknown target; otherwise only the block record is removed |
| Social.BlockSeversFollows | backend/src/social/app.js:543-553 | after a block neither user follows the other and every other follow edge is kept |
| Social.BlockThenUnblock | backend/src/social/app.js:509-585 | unblocking after a block leaves no block and the two follow edges still gone |
| Social.ConversationId | backend/src/social/app.js:191 | the id is the two participants joined by `#` in one of the two orders |
| Social.ConversationIdSymmetric | backend/src/social/app.js:191 | both participants get the same conversation id |
| Social.ConversationIdOrdered | backend/src/social/app.js:191 | for either order of the same two participants the id is the lexicographically smaller one, `#`, then the other |
| Social.SendMessage | backend/src/social/app.js:181-235 | 400 exactly when a field is missing; otherwise 201, one message stored under the conversation of the ordered pair, with the given message id, read and delivered false and encrypted true, and the conversation record set to this message's time and the placeholder preview |
| Social.ReplyJoinsConversation | backend/src/social/app.js:191-228 | a reply lands in the same conversation, moves its last activity and adds no conversation |
| Social.UnreadCount | backend/src/social/app.js:290 | the unread count is at most the inbox size |
| Social.UnreadPlusRead | backend/src/social/app.js:290 | unread and read messages together make the whole inbox |
| Social.UnreadZeroIff | backend/src/social/app.js:290 | the count is zero exactly when every message is read |
| Social.ShareUrlChoice | backend/src/social/app.js:438-449 | an unknown platform gets the canonical URL; a known one a platform URL embedding the encoded canonical URL |
| Social.Share | backend/src/social/app.js:410-452 | 404 for an unknown post; otherwise 200, the platform URL, and the share count raised by one |
| Social.ShareCountsEveryPlatform | backend/src/social/app.js:430-436 | the count rises by one whatever the platform, known or not |
| Social.Crosspost | backend/src/social/app.js:338-406 | 400 without userId or target, 404 for an unknown post; otherwise 201, the new post stored and the original's share count raised, nothing outside the posts changing |
| Social.CrosspostDefaults | backend/src/social/app.js:362-390 | the crosspost defaults its title to "Crosspost: " plus the original's, starts with zero counters, is active, and copies body, media and tags |
| Social.CrosspostCountsShare | backend/src/social/app.js:393-399 | the original post changes only in its share count, by one |
| Social.PlaceholderInjective | backend/src/social/app.js:485 | distinct indexes get distinct `:uidN` placeholders |
| Social.Placeholders | backend/src/social/app.js:485 | one placeholder per followed user, in order |
| Social.BindAt | backend/src/social/app.js:493 | each placeholder is bound to the user at its index |
| Social.BindKeys | backend/src/social/app.js:493 | only those placeholders are bound |
| Social.BindSize | backend/src/social/app.js:493 | as many bindings as followed users |
| Social.FeedFixedBindings | backend/src/social/app.js:488-494 | the type and status bindings are present alongside the user placeholders |
| Social.FeedPlaceholderBindings | backend/src/social/app.js:485-494 | the bound values are exactly the followed users |
| Social.FeedFilterNamesAll | backend/src/social/app.js:485 | the filter mentions every placeholder |
| Social.Feed | backend/src/social/app.js:456-506 | 400 without a userId, an empty 200 when following nobody, otherwise the scanned posts reordered newest first |
| Communities.Create | backend/src/communities/app.js:32-83 | 400 without a name and display name, 409 whenever the name's META item exists, including the partial one a join, leave or post-count `ADD` upserts; 201 exactly otherwise, storing the new record with member and post counters at 0 and nothing else |
| Communities.MembershipBlocksCreate | backend/src/communities/app.js:41-49 | a join or leave on a community nobody created (the `ADD` upserts at lines 158-166 and 194-202) leaves its META item in place, so creating that name afterwards answers 409 |
| Communities.CreateDefaults | backend/src/communities/app.js:55-72 | a new community has both counters at 0, category "general", no rules, an empty description, status active, and a second create of the same name gets 409 |
| Communities.JoinCommunity | backend/src/communities/app.js:131-171 | 400 without a userId; otherwise the membership is written, that community's member count goes up by one and its record's updatedAt becomes now, no other count or record changing |
| Communities.LeaveCommunity | backend/src/communities/app.js:174-206 | 400 without a userId; otherwise the membership is removed, the member count goes down by one and the record's updatedAt becomes now, no other count or record changing |
| Communities.RepeatedJoinsCount | backend/src/communities/app.js:131-171 | joining twice counts the same user twice |
| Communities.LeaveWithoutMembership | backend/src/communities/app.js:174-206 | leaving without being a member still decrements, down to -1 |
| Communities.JoinThenLeave | backend/src/communities/app.js:131-206 | a join followed by a leave restores the count and removes the membership |
| Communities.AddFlair | backend/src/communities/app.js:209-236 | 400 exactly when the text is missing; otherwise the flair with background #0079d3 and text colour #ffffff by default, moderator-only only when asked |
| Communities.AddRule | backend/src/communities/app.js:345-371 | 400 exactly when the title is missing; otherwise the rule with the order defaulting to 0 and the description to "" |
| Communities.AddWidget | backend/src/communities/app.js:392-419 | 400 exactly when the widget type is missing; otherwise the widget with the order defaulting to 0, the title to "" and the content to `{}` whenever the supplied content is empty or absent |
| Communities.ListRules | backend/src/communities/app.js:386 | the same rules, reordered by ascending order with a missing order read as 0 |
| Communities.ListWidgets | backend/src/communities/app.js:434 | the same widgets, reordered by ascending order with a missing order read as 0 |
| Communities.MissingOrderReadsAsZero | backend/src/communities/app.js:386 | a rule without an order comes before every rule with a positive order |
| Communities.ClausesUpToFields | backend/src/communities/app.js:273-317 | after any number of checks, updatedAt leads and exactly the checked fields that were supplied follow, in check order |
| Communities.ValuesUpToFields | backend/src/communities/app.js:273-317 | after any number of checks, exactly the checked supplied fields have values, each the supplied one |
| Communities.SettingsClausesInOrder | backend/src/communities/app.js:273-317 | the SET clauses are updatedAt and each field that is not undefined, in source order |
| Communities.SettingsValueFields | backend/src/communities/app.js:273-317 | each set field carries its supplied value and updatedAt the current time |
| Communities.AttributeNames | backend/src/communities/app.js:321-336 | the `#type` name mapping is sent exactly when a type is supplied |
| Communities.Include | backend/src/communities/app.js:276-318 | one `!== undefined` check pushes the clause and sets the value only for a supplied field |
| Communities.BuildSettingsUpdate | backend/src/communities/app.js:273-337 | the builder produces exactly the specified clauses, values and attribute names |
| Communities.DeadCommunityRoutes | backend/src/communities/app.js:86-422 | the flairs, rules and widgets GETs are never reached: every GET with a name returns the community |
| Communities.JoinPrefixedNameCannotLeave | backend/src/communities/app.js:131-174 | leaving a community whose name starts with "join" is handled as a join |
| Communities.CorrectedCommunityRoutes | backend/src/communities/app.js:86-437 | with routes matched on the final segment, every sub-resource request reaches its own handler |
| Communities.CorrectedRouteFor | backend/src/communities/app.js:86-437 | any request that names a community and ends in a sub-resource reaches that sub-resource's handler for its method |
| Presign.MaxSize | backend/src/presign/app.js:8-14 | a kind without its own limit falls back to the 20 MiB document limit |
| Presign.Classify | backend/src/presign/app.js:59-63 | the content type's family decides the kind, image before video before audio; otherwise the client's media type, or document |
| Presign.GifNeverFromContentType | backend/src/presign/app.js:60-63 | the gif kind only comes from the client's media type: image/gif is classified as image and gets the 10 MiB limit |
| Presign.ClassifyCorrected | backend/src/presign/app.js:59-63 | the classification with the gif check placed first, as its limit table intends |
| Presign.CorrectedGif | backend/src/presign/app.js:59-63 | image/gif becomes gif with the 20 MiB limit; every other content type is classified as before |
| Presign.Extension | backend/src/presign/app.js:73 | the extension is the text after the last dot, the whole name when there is none, and holds no dot |
| Presign.Presign | backend/src/presign/app.js:48-97 | 400 exactly when filename, content type or a non-zero size is missing; then 413 exactly when the size exceeds the kind's limit; otherwise the key, kind, content type and filename of the upload |
| Presign.SizeLimitBoundary | backend/src/presign/app.js:66-71 | a size equal to the limit is accepted and one byte more is refused with 413 |
| Presign.UploadKeyShape | backend/src/presign/app.js:75 | the key is `uploads/{kind}/{fileId}.` followed by the extension |
| Presign.VariantLines | backend/src/presign/app.js:108-111 | two lines per quality, the stream tag then its URI, in table order |
| Presign.HeaderText | backend/src/presign/app.js:106 | the header lines give `#EXTM3U`, `#EXT-X-VERSION:3` and a blank line (RFC 8216 sections 4.3.1.1 and 4.3.1.2) |
| Presign.ManifestStep | backend/src/presign/app.js:108-111 | one loop iteration adds exactly the next quality's two lines |
| Presign.BuildManifest | backend/src/presign/app.js:106-111 | the loop builds exactly the header followed by every quality's tag and URI lines |
| Presign.QualityBandwidths | backend/src/presign/app.js:17-24 | the six qualities advertise 200000 to 5000000 bits per second, the kbps figure times 1000 (RFC 8216 section 4.3.4.2) |
| Presign.ManifestShape | backend/src/presign/app.js:106-111 | the manifest starts with the header and has one `#EXT-X-STREAM-INF:BANDWIDTH=…,RESOLUTION=…` line and one playlist URI per quality, in order |
| Presign.PlaylistShape | backend/src/presign/app.js:132-138 | the quality playlist starts with `#EXTM3U` and ends with `#EXT-X-ENDLIST` (RFC 8216 sections 4.3.1.1 and 4.3.3.4) |
| Presign.PlaylistIgnoresRequest | backend/src/presign/app.js:125-138 | every video and quality gets the same playlist text |
| Presign.PartUrls | backend/src/presign/app.js:183-193 | exactly `parts` entries (none for a non-positive count), numbered from 1 in order, each keyed `{key}.part{i}` and carrying that key's signed URL |
| Presign.PartKeysDistinct | backend/src/presign/app.js:187 | different part numbers get different object keys |
| Presign.StartMultipart | backend/src/presign/app.js:169-201 | 400 exactly when a field or a non-zero size or part count is missing; otherwise the upload id, the key `uploads/multipart/{fileId}/{filename}` and the numbered parts, each carrying the signed URL of its own part key |
| PostDetail.View.constructor | frontend/buchat/src/pages/PostDetail.js:47-78 | the fetched post is kept; score and vote start from the post with absent values read as 0, saved only when the post says so; a missing post or a failed comment fetch sends the reader home |
| PostDetail.ScoreLessVoteInvariant | frontend/buchat/src/pages/PostDetail.js:118-129 | each click yields a vote of -1, 0 or 1 and keeps the score minus the vote unchanged |
| PostDetail.SameButtonTwice | frontend/buchat/src/pages/PostDetail.js:118-129 | pressing one button twice restores vote and score, except after switching from the opposite vote, which ends with no vote and the score one step toward the button |
| PostDetail.View.EditComment | frontend/buchat/src/pages/PostDetail.js:80-100 | typing changes only the comment text |
| PostDetail.View.Vote | frontend/buchat/src/pages/PostDetail.js:112-140 | without a user only the login navigation; otherwise the cleared-or-new vote is sent, the score moves by the vote's change, and both are restored when the call fails |
| PostDetail.View.Save | frontend/buchat/src/pages/PostDetail.js:143-160 | without a user only the login navigation; otherwise the flipped flag is sent and kept, or flipped back on failure |
| PostDetail.View.SubmitComment | frontend/buchat/src/pages/PostDetail.js:80-109 | without a user only the login navigation; blank text sends nothing; an accepted comment clears the box and the list is replaced when the re-fetch succeeds |
| PostCard.ShownScoreSwapsVotes | frontend/buchat/src/components/posts/PostCard.js:43-52 | the three score formulas amount to the prop's score less the previous vote plus the new one |
| PostCard.UpThenUndoShowsOneLess | frontend/buchat/src/components/posts/PostCard.js:43-52 | up-voting then pressing up again shows one below the prop's score |
| PostCard.Excerpt | frontend/buchat/src/components/posts/PostCard.js:157 | a body of at most 300 characters is shown whole; a longer one as its first 300 characters and "..." |
| PostCard.Card.constructor | frontend/buchat/src/components/posts/PostCard.js:18-20 | no vote, the prop's score, not saved |
| PostCard.Card.Vote | frontend/buchat/src/components/posts/PostCard.js:35-61 | without a user only the login navigation; otherwise the new vote and the score derived from the prop, and on failure the old vote and the prop's score |
| PostCard.Card.Save | frontend/buchat/src/components/posts/PostCard.js:63-76 | without a user only the login navigation; otherwise the flag flips only when the call succeeds |
| CreateCommunityModal.ToggleTopic | frontend/buchat/src/components/community/CreateCommunityModal.js:62-75 | a chosen topic is removed, a new one appended, and a sixth refused leaving the list unchanged |
| CreateCommunityModal.FilterKeepsDistinct | frontend/buchat/src/components/community/CreateCommunityModal.js:65 | removing topics keeps them distinct |
| CreateCommunityModal.ToggleKeepsSelection | frontend/buchat/src/components/community/CreateCommunityModal.js:40-75 | toggling keeps at most five distinct topics |
| CreateCommunityModal.MatchingTopics | frontend/buchat/src/components/community/CreateCommunityModal.js:145-147 | a topic is listed exactly when its lower-cased text contains the lower-cased search |
| CreateCommunityModal.EmptySearchListsAll | frontend/buchat/src/components/community/CreateCommunityModal.js:145-147 | an empty search lists every topic in its original order |
| CreateCommunityModal.MakePayload | frontend/buchat/src/components/community/CreateCommunityModal.js:95-104 | the display name is the name; description, type, maturity and username are copied; the topics are the comma-joined list; the user id is `userId` when truthy, else `id` |
| CreateCommunityModal.SplitAppend | frontend/buchat/src/components/community/CreateCommunityModal.js:101 | text without the separator splits into itself, and appending the separator and such text appends one piece |
| CreateCommunityModal.PayloadTopicsSplit | frontend/buchat/src/components/community/CreateCommunityModal.js:101 | for a non-empty list of comma-free topics, the payload's topics field splits back into that list |
| CreateCommunityModal.TopicsRoundTrip | frontend/buchat/src/components/community/CreateCommunityModal.js:101 | the comma-joined topics split back into the chosen list |
| CreateCommunityModal.TopicsHaveNoComma | frontend/buchat/src/components/community/CreateCommunityModal.js:23-29 | no offered topic holds a comma, so the round trip applies to every selection |
| CreateCommunityModal.Modal.constructor | frontend/buchat/src/components/community/CreateCommunityModal.js:39-49 | step 1, the initial form, an empty search |
| CreateCommunityModal.Modal.NextStep | frontend/buchat/src/components/community/CreateCommunityModal.js:347-351 | offered below step 4 and not on step 1 with a blank name; moves one step forward and keeps the form |
| CreateCommunityModal.Modal.PrevStep | frontend/buchat/src/components/community/CreateCommunityModal.js:332 | offered above step 1; moves one step back and keeps the form |
| CreateCommunityModal.Modal.ChangeName | frontend/buchat/src/components/community/CreateCommunityModal.js:54-60 | only the name changes |
| CreateCommunityModal.Modal.ChangeDescription | frontend/buchat/src/components/community/CreateCommunityModal.js:54-60 | only the description changes |
| CreateCommunityModal.Modal.ChangeCommunityType | frontend/buchat/src/components/community/CreateCommunityModal.js:54-60 | only the community type changes |
| CreateCommunityModal.Modal.ChangeMature | frontend/buchat/src/components/community/CreateCommunityModal.js:54-60 | only the maturity flag changes |
| CreateCommunityModal.Modal.Search | frontend/buchat/src/components/community/CreateCommunityModal.js:49 | only the search text changes |
| CreateCommunityModal.Modal.Toggle | frontend/buchat/src/components/community/CreateCommunityModal.js:62-75 | the topics become the toggled list and remain at most five distinct ones |
| CreateCommunityModal.Modal.ResetAndClose | frontend/buchat/src/components/community/CreateCommunityModal.js:131-143 | the initial form, step 1, and the wizard closed |
| CreateCommunityModal.Modal.Submit | frontend/buchat/src/components/community/CreateCommunityModal.js:78-129 | a payload is sent exactly when there is a user and a name; an empty name returns to step 1; success resets and closes; failure changes nothing |
| CommunityDetail.IsCreator | frontend/buchat/src/pages/CommunityDetail.js:43 | the predicate as written, absent ids comparing equal |
| CommunityDetail.EveryUserIsCreator | frontend/buchat/src/pages/CommunityDetail.js:43 | a user with a userId and no id is taken for the creator of any community without a creatorId |
| CommunityDetail.IsCreatorCorrected | frontend/buchat/src/pages/CommunityDetail.js:43 | the creator check with absent ids never matching |
| CommunityDetail.CreatorCorrected | frontend/buchat/src/pages/CommunityDetail.js:43 | only a user holding the recorded creator id is the creator, and the two checks agree whenever a creator id is recorded |
| CommunityDetail.Optimistic | frontend/buchat/src/pages/CommunityDetail.js:85-93 | membership flips and the count moves by one toward it, nothing else changing |
| CommunityDetail.FailedJoinKeepsCount | frontend/buchat/src/pages/CommunityDetail.js:108-114 | after a failed join the membership is restored but the count stays one higher |
| CommunityDetail.RefetchedMembership | frontend/buchat/src/pages/CommunityDetail.js:104-106 | after a successful join the user is a member; after a successful leave membership is the server's flag |
| CommunityDetail.CorrectedRevert | frontend/buchat/src/pages/CommunityDetail.js:108-114 | with the intended revert a failure restores the whole view; success is unchanged |
| CommunityDetail.Page.constructor | frontend/buchat/src/pages/CommunityDetail.js:45-77 | a loaded community sets membership from its flag; a failed load sends the reader to the community list |
| CommunityDetail.Page.JoinLeave | frontend/buchat/src/pages/CommunityDetail.js:79-117 | without authentication only the login navigation; otherwise the join or leave call is sent and the view ends as the handler's outcome function says |
| Sidebar.PrefixNotSegment | frontend/buchat/src/components/layout/Sidebar.js:64-71 | Home is active only on "/", and "/allposts" activates "/all" |
| Sidebar.SharedPrefix | frontend/buchat/src/components/layout/Sidebar.js:70 | two links active on one path agree on their first characters |
| Sidebar.NavPathsShape | frontend/buchat/src/components/layout/Sidebar.js:39-62 | eleven links, Home first, every other one told apart by its second and third characters |
| Sidebar.AtMostOneActive | frontend/buchat/src/components/layout/Sidebar.js:39-71 | no path activates two links |
| Sidebar.Sections.constructor | frontend/buchat/src/components/layout/Sidebar.js:51-53 | all three sections start open |
| Sidebar.Sections.ToggleRecent | frontend/buchat/src/components/layout/Sidebar.js:112 | only the Recent flag flips |
| Sidebar.Sections.ToggleCommunities | frontend/buchat/src/components/layout/Sidebar.js:139 | only the Communities flag flips |
| Sidebar.Sections.ToggleResources | frontend/buchat/src/components/layout/Sidebar.js:166 | only the Resources flag flips |

## Left out

- Store and SDK calls are not modelled: DynamoDB reads and writes, SES mail, S3 signing, Comprehend, Rekognition, bcrypt, JSON web tokens and Google OAuth. Their results are parameters.
- Scan and query behaviour is not modelled: a `Limit` applied before the filter expression, and pagination. A scan result is the list the handler receives.
- Floating-point decay and logarithms are not modelled. The hot rank, the trend score and `Math.log(score + 1)` are opaque real-valued parameters; only ordering, filtering and bounds around them are stated.
- Ai.SimilarityScore: its bounds leave out the logarithmic term, which is a parameter.
- Ai.RankSimilar: the logarithm is a parameter. For a post scored below -1 the source's `Math.log(score + 1)` is `NaN`, which makes the similarity `NaN` and leaves the sort order unspecified; the model orders every post by a real number.
- Ai.Recommend: the ranking of a returning user's posts inherits the `NaN` gap of Ai.RankSimilar for posts scored below -1.
- Ai.PersonalizedFor: the ranking inherits the `NaN` gap of Ai.RankSimilar for posts scored below -1.
- Ai.LowerAll: lower-casing maps only the ASCII capitals. JavaScript's `toLowerCase` maps all of Unicode, so `École` stays `École` here and becomes `école` there.
- Ai.PhraseTags: tags are lower-cased in ASCII only, as in Ai.LowerAll.
- Ai.EntityTags: tags are lower-cased in ASCII only, as in Ai.LowerAll.
- Ai.SuggestedTags: deduplication sees ASCII-lower-cased tags, so two tags differing only in a non-ASCII capital stay distinct here and merge in the source.
- Ai.CountTags: the key order is first occurrence. `Object.entries` lists integer-like keys such as `2024` first, in ascending order; only the order of equal counts at the cut-off depends on it.
- Ai.CountTags: a tag named after an `Object.prototype` property such as `constructor` or `__proto__` is counted like any other tag; in the source it reads an inherited value first or is dropped.
- Ai.RankTopics: equal counts keep first-occurrence order, not the integer-keys-first order of `Object.entries`.
- Ai.TrendingTopics: equal counts keep first-occurrence order, as in Ai.RankTopics.
- Ai.BumpTags: a tag named after an `Object.prototype` property such as `constructor` or `__proto__` is counted like any other tag; the source's plain-object map mishandles it.
- Ai.BuildInterestMap: community and tag keys named after an `Object.prototype` property are counted like any other key, as in Ai.BumpTags.
- Ai.Indicators: lengths count code points. JavaScript counts UTF-16 units, so a text with characters outside the Basic Multilingual Plane, such as emoji, is longer there, which moves the 50-character and capitals-ratio thresholds. The repeated-character test also compares code points, where the source's regular expression without the `u` flag compares UTF-16 units: five equal emoji such as `😀😀😀😀😀` fire the test here and not in the source.
- Ai.SpamCheck: it inherits the length and repeated-character gaps of Ai.Indicators.
- The AI sentiment, media moderation and toxicity handlers (backend/src/ai/app.js:103-203, 378-438) are not modelled: they only relay a foreign service's answer.
- `Promise.all` concurrency in recommendations is not modelled. Only the combined result is.
- Posts: search, save listings, hide/unhide, awards, crossposts, media views and media updates (backend/src/posts/app.js:352-390, 437-807) are not modelled beyond their place in the route order. They are single store writes or queries.
- Users: the Google sign-in branch (backend/src/users/app.js:270-377) is not modelled; it is OAuth verification.
- Users: the preference, block, karma, trophy and search bodies (backend/src/users/app.js:731-924) are not modelled beyond their place in the route order. They are store plumbing, and most of them are unreachable.
- Users.UpdateProfile: for an unknown username the new item holds only the key and the supplied fields. The model writes a record whose other fields hold empty values (`AbsentProfile`), which stand for absent attributes.
- Users.Verify: codes are compared after ASCII-only upper-casing. JavaScript's `toUpperCase` also maps characters such as `ß` and `ſ`, which this does not model.
- Users.Reset: the supplied reset code is upper-cased in ASCII only, as in Users.Verify.
- Users.Register: password length is counted in code points, not in the UTF-16 units JavaScript counts.
- Social: the followers/following listings, conversation reads, mark-as-read, message deletion, the blocked list, the conversation list and typing indicators (backend/src/social/app.js:114-179, 238-266, 296-336, 588-760) are not modelled. They are queries, or store loops that issue writes.
- Social.ConversationId: it orders characters by code point. JavaScript's default sort compares UTF-16 units, and the two differ only outside the Basic Multilingual Plane.
- Social.ShareUrl: it does not model a platform named after an `Object.prototype` property such as `constructor`. For such a platform the lookup returns a function instead of a URL.
- Communities: the list and user-community queries and the single community read (backend/src/communities/app.js:86-128, 440-454) are not modelled; they are queries.
- Communities.AddWidget: content is a string. A falsy non-string content such as `0` or `false` also becomes `{}` in the source; the model has only the empty string and absence.
- Communities.JoinCommunity: `ADD` on a missing community record creates a partial record. The model represents it only by its counter entry, which makes Communities.HasMeta hold and a later create answer 409; its `updatedAt` is not stored.
- Communities.Create: the posts handler's post-count `ADD` (backend/src/posts/app.js:130, 254) writes the separate Posts store; here such a partial record appears only as a `postCounts` entry, which blocks a create like any other partial record.
- Communities.LeaveCommunity: on a missing community record the same partial record is created; the model treats it as Communities.JoinCommunity does.
- Presign.Presign: it does not model a media type named after an `Object.prototype` property such as `constructor`. For such a type the limit lookup returns a function, the comparison is false, and any size is accepted.
- Presign.Presign: a non-integer size is not modelled; sizes are integers.
- Presign.StartMultipart: a non-integer part count is not modelled; part counts are integers.
- Presign: the download URL, the thumbnail URL, the video id extraction and the OPTIONS preflight (backend/src/presign/app.js:35-41, 101, 151-166, 204-225) are not modelled. They wrap a signing call or only parse the path.
- Client components: rendering, animation, toasts, `navigator.share`, relative-time formatting, and the Navbar and Communities pages are not modelled. Navigation is a field holding the last route.
- PostCard.Card.Vote: it takes the post's score as an integer. A post without a score makes the source compute `NaN`, which is not modelled.
- CommunityDetail: the community's post list, the create-post shortcut and the build-card flag are not modelled; they hold no logic.
- Sidebar: the `isOpen`/`onClose` props are not modelled; they belong to the parent layout.
- PostCard.Excerpt: the 300-character cut counts code points. JavaScript's `substring` counts UTF-16 units, so a body with emoji is cut earlier there, possibly between the two halves of a surrogate pair.
- CreateCommunityModal.MatchingTopics: matching lower-cases in ASCII only. JavaScript's `toLowerCase` maps other capitals too, such as the Kelvin sign to `k`, so some queries match more topics there.
- CreateCommunityModal: the banner and icon fields of the form are not modelled; no handler reads them.

## Findings

| source | as written | input that shows it | evidently intended | confidence | as-written member | corrected member |
|---|---|---|---|---|---|---|
| backend/src/posts/app.js:206 | the delete-post branch matches any DELETE with a post id, so it also catches the unsave path | `DELETE /posts/p1/save` from the post's author soft-deletes post p1 | the unsave branch at line 465 handles it | high, not executed | Posts.UnsaveDeletesPost | Posts.CorrectedRoutesReachable |
| backend/src/users/app.js:657 | the profile GET matches every GET with a username except posts, comments and stats paths | `GET /users/alice/karma` returns alice's profile, not her karma | the preference, karma and trophy GETs at lines 770, 827 and 880 are reached (once reached, the trophy GET still answers 500: `QueryCommand` is not imported at line 2) | high, not executed | Users.SubresourceGetsShadowed | Users.CorrectedUserRoutesReachable |
| backend/src/users/app.js:259-265 | login removes the password and verification code but returns the pending reset code | forgot-password for alice, then a login as alice: the reply holds the reset code | the reply hides every secret, as the profile GET at lines 674-676 does | medium, not executed | Users.LoginLeaksResetCode | Users.LoginCorrected |
| backend/src/communities/app.js:86 | the community GET matches every GET with a name | `GET /communities/cats/rules` returns the community record, not its rules | the flair, rule and widget GETs at lines 239, 374 and 422 are reached | high, not executed | Communities.DeadCommunityRoutes | Communities.CorrectedCommunityRoutes |
| backend/src/communities/app.js:131 | the join branch matches any path containing `/join` | `POST /communities/joiners/leave` joins again | a leave request reaches the leave branch whatever the community is called | high, not executed | Communities.JoinPrefixedNameCannotLeave | Communities.CorrectedCommunityRoutes |
| backend/src/presign/app.js:60-63 | `image/` is checked before `image/gif`, so the gif kind and its 20 MiB limit are never chosen from the content type | a 15 MiB upload with content type `image/gif` is refused with 413 | gifs are classified as gif and allowed 20 MiB | high, not executed | Presign.GifNeverFromContentType | Presign.CorrectedGif |
| frontend/buchat/src/pages/CommunityDetail.js:43 | two absent ids compare equal | a signed-in user (userId set, no id) on any community, whose record has no creatorId, is shown as its creator | only a user whose id equals a recorded creatorId is the creator | high, not executed | CommunityDetail.EveryUserIsCreator | CommunityDetail.CreatorCorrected |
| frontend/buchat/src/pages/CommunityDetail.js:108-114 | the failure path restores membership but keeps the optimistically changed member count | a join that fails on a community of 10 members shows 11 members and a Join button | the count returns to its value before the click | high, not executed | CommunityDetail.FailedJoinKeepsCount | CommunityDetail.CorrectedRevert |
| backend/src/ai/app.js:465-473, 584-593 | the personalised feed and community recommendations look memberships up under `PK USER#{userId}` and `SK MEMBER#`, but joining writes them under `PK COMM#{name}` and `SK MEMBER#{userId}` (backend/src/communities/app.js:144-149) | a user who has joined `cats` gets no community term for posts in `cats` and is recommended `cats` again | the `GSI1` lookup by `USER#{userId}` and `JOINED#`, as discovery does at backend/src/ai/app.js:331-339 | high, not executed | Ai.JoinedLookupFindsNothing | Ai.JoinedLookupCorrected |
| backend/src/ai/app.js:206 | the post recommender matches every GET on exactly `/recommendations`, ahead of the community branch at line 572 that reads `type` | `GET /recommendations?type=communities&userId=u1` returns post recommendations | that request reaches the community recommendations | medium, not executed | Ai.CommunityRecommendationsShadowed | Ai.CorrectedRecommendationRoutes |
