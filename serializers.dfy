/**
 * The computed fields and the one validator of comments/serializers.py.
 */
module Serializers {
  import opened Wrappers
  import opened Queries
  import opened Models
  import opened Listings

  const DeletedParentText: string := "Cannot reply to a deleted comment."

  /** `CommentCreateSerializer.validate_parent`: a deleted parent is refused; anything else passes unchanged. */
  function ValidateParent(value: Option<Comment>): (r: Result<Option<Comment>, string>)
    ensures r.Failure? <==> value.Some? && value.value.isDeleted
    ensures r.Failure? ==> r.error == DeletedParentText
    ensures r.Success? ==> r.value == value
  {
    if value.Some? && value.value.isDeleted then Failure(DeletedParentText) else Success(value)
  }

  /**
   * `get_replies_count`: `obj.replies.filter(is_deleted=False).count()`,
   * which is the length of the replies listing.
   */
  function RepliesCount(comments: seq<Comment>, c: Comment): (n: nat)
    ensures n == |LiveReplies(comments, c.id)|
  {
    FilterCount(comments, IsLiveReplyOf(c.id));
    Count(comments, IsLiveReplyOf(c.id))
  }

  /**
   * `PageSerializer.get_comments_count`: the page's non-deleted top-level
   * comments, as many as the page's comment listing shows.
   */
  function CommentsCount(comments: seq<Comment>, pageId: int): (n: nat)
    ensures n == |PageTopLevel(comments, pageId)|
  {
    FilterCount(comments, IsLiveTopLevelOn(pageId));
    Count(comments, IsLiveTopLevelOn(pageId))
  }

  /**
   * `get_user_vote`: nothing for an anonymous user or a user without a vote
   * on the comment; otherwise the stored type of the user's vote.
   */
  function UserVote(votes: seq<Vote>, user: User, c: Comment): (r: Option<string>)
    ensures !user.IsAuthenticated() ==> r.None?
    ensures user.IsAuthenticated() ==>
              (r.None? <==> forall k :: 0 <= k < |votes| ==> !IsVoteBy(votes[k], user.id, c.id))
    ensures r.Some? ==> exists k :: 0 <= k < |votes| && IsVoteBy(votes[k], user.id, c.id) && votes[k].voteType == r.value
  {
    if user.IsAuthenticated() then GetUserVote(votes, user.id, c.id) else None
  }
}
