/**
 * The entities of comments/models.py and the rules stated on them: the
 * edit and delete permissions, the vote counts and score, a user's own vote,
 * and the replies of a comment.  Everything here is a pure function of a
 * comment's fields and of the rows of the vote and comment tables.
 */
module Models {
  import opened Wrappers
  import opened Queries

  type UserId = nat
  type PageId = nat
  type CommentId = nat

  /** The requesting user: Django's AnonymousUser or a registered user. */
  datatype User = Anonymous | Member(id: UserId, username: string) {
    predicate IsAuthenticated() {
      Member?
    }

    /** `user == comment.author`: model instances compare by primary key, and an anonymous user equals no one. */
    predicate Is(author: UserId) {
      Member? && id == author
    }
  }

  datatype Comment = Comment(
    id: CommentId,
    page: PageId,
    author: UserId,
    content: string,
    createdAt: int,          // seconds
    parent: Option<CommentId>,
    isDeleted: bool)

  /** A row of the vote table; `voteType` is the stored CharField value. */
  datatype Vote = Vote(user: UserId, comment: CommentId, voteType: string)

  /** The two choices of `Vote.VOTE_TYPES`. */
  const Up: string := "up"
  const Down: string := "down"

  function CreatedAt(c: Comment): int {
    c.createdAt
  }

  /**
   * `is_parent`: a top-level comment, that is, one that no list of comments
   * makes the reply of any comment.
   */
  predicate IsParent(c: Comment)
    ensures IsParent(c) <==> forall comments, p :: c !in GetReplies(comments, p)
  {
    TopLevelExactlyNoReply(c);
    c.parent.None?
  }

  lemma TopLevelExactlyNoReply(c: Comment)
    ensures c.parent.None? <==> forall comments, p :: c !in GetReplies(comments, p)
  {
    if c.parent.None? {
      forall comments, p ensures c !in GetReplies(comments, p) {
        assert multiset(GetReplies(comments, p))[c] == 0;
      }
    } else {
      var p := Comment(c.parent.value, 0, 0, "", 0, None, false);
      assert multiset(GetReplies([c], p))[c] == 1;
    }
  }

  /** `created_at + timedelta(minutes=timeoutMinutes)`, in seconds. */
  function EditDeadline(c: Comment, timeoutMinutes: int): int {
    c.createdAt + 60 * timeoutMinutes
  }

  /** `can_be_edited_by`: a user who may delete the comment, before its edit deadline has passed. */
  predicate CanBeEditedBy(c: Comment, user: User, now: int, timeoutMinutes: int)
    ensures CanBeEditedBy(c, user, now, timeoutMinutes) <==> CanBeDeletedBy(c, user) && now <= EditDeadline(c, timeoutMinutes)
    ensures CanBeEditedBy(c, user, now, timeoutMinutes) ==> user == Member(c.author, user.username)
  {
    user.Is(c.author) && !c.isDeleted && now <= EditDeadline(c, timeoutMinutes)
  }

  /** `can_be_deleted_by`: only the author, and only while the comment is not deleted. */
  predicate CanBeDeletedBy(c: Comment, user: User)
    ensures !user.IsAuthenticated() || c.isDeleted ==> !CanBeDeletedBy(c, user)
    ensures user.IsAuthenticated() && !c.isDeleted ==> (CanBeDeletedBy(c, user) <==> user.id == c.author)
  {
    user.Is(c.author) && !c.isDeleted
  }

  /** The comment after `is_deleted = True; save()`: the row is kept. */
  function SoftDeleted(c: Comment): (d: Comment)
    ensures d.isDeleted
    ensures d.(isDeleted := c.isDeleted) == c
  {
    c.(isDeleted := true)
  }

  /** Whoever may edit a comment may also delete it. */
  lemma EditImpliesDelete(c: Comment, user: User, now: int, timeoutMinutes: int)
    ensures CanBeEditedBy(c, user, now, timeoutMinutes) ==> CanBeDeletedBy(c, user)
  {
  }

  /** A soft-deleted comment can be neither edited nor deleted again, by anyone, at any time. */
  lemma SoftDeleteLocksOut(c: Comment, user: User, now: int, timeoutMinutes: int)
    ensures !CanBeEditedBy(SoftDeleted(c), user, now, timeoutMinutes)
    ensures !CanBeDeletedBy(SoftDeleted(c), user)
  {
  }

  /** The edit window is closed at its end: the deadline itself is inside, one second later is not. */
  lemma EditWindowInclusive(c: Comment, user: User, timeoutMinutes: int)
    requires CanBeDeletedBy(c, user)
    ensures CanBeEditedBy(c, user, EditDeadline(c, timeoutMinutes), timeoutMinutes)
    ensures !CanBeEditedBy(c, user, EditDeadline(c, timeoutMinutes) + 1, timeoutMinutes)
  {
  }

  /** Only the author may edit, and a permission held at some time is held at every earlier time. */
  lemma EditPermissionShrinks(c: Comment, user: User, earlier: int, later: int, timeoutMinutes: int)
    requires earlier <= later
    ensures CanBeEditedBy(c, user, later, timeoutMinutes) ==> CanBeEditedBy(c, user, earlier, timeoutMinutes)
    ensures CanBeEditedBy(c, user, later, timeoutMinutes) ==> user == Member(c.author, user.username)
  {
  }

  predicate IsVoteOn(v: Vote, comment: CommentId, voteType: string) {
    v.comment == comment && v.voteType == voteType
  }

  /** `comment.votes.filter(vote_type=voteType).count()`. */
  function CountVotes(votes: seq<Vote>, comment: CommentId, voteType: string): (n: nat)
    ensures n <= |votes|
    ensures n == 0 <==> forall k :: 0 <= k < |votes| ==> !IsVoteOn(votes[k], comment, voteType)
  {
    if votes == [] then 0
    else CountVotes(votes[1..], comment, voteType) + (if IsVoteOn(votes[0], comment, voteType) then 1 else 0)
  }

  /** `upvote_count`: how many rows are up votes on the comment. */
  function UpvoteCount(votes: seq<Vote>, comment: CommentId): (n: nat)
    ensures n <= |votes|
    ensures n == 0 <==> forall k :: 0 <= k < |votes| ==> !IsVoteOn(votes[k], comment, Up)
  {
    CountVotes(votes, comment, Up)
  }

  /** `downvote_count`: how many rows are down votes on the comment. */
  function DownvoteCount(votes: seq<Vote>, comment: CommentId): (n: nat)
    ensures n <= |votes|
    ensures n == 0 <==> forall k :: 0 <= k < |votes| ==> !IsVoteOn(votes[k], comment, Down)
  {
    CountVotes(votes, comment, Down)
  }

  /** `score`: positive only when some up vote exists, negative only when some down vote exists. */
  function Score(votes: seq<Vote>, comment: CommentId): (s: int)
    ensures -|votes| <= s <= |votes|
    ensures s > 0 ==> exists k :: 0 <= k < |votes| && IsVoteOn(votes[k], comment, Up)
    ensures s < 0 ==> exists k :: 0 <= k < |votes| && IsVoteOn(votes[k], comment, Down)
  {
    UpvoteCount(votes, comment) - DownvoteCount(votes, comment)
  }

  predicate IsVoteBy(v: Vote, user: UserId, comment: CommentId) {
    v.user == user && v.comment == comment
  }

  /** The `unique_together = ('user', 'comment')` constraint of the vote table. */
  ghost predicate UniqueVotes(votes: seq<Vote>) {
    forall i, j :: 0 <= i < j < |votes| ==> !IsVoteBy(votes[j], votes[i].user, votes[i].comment)
  }

  /** The index of the first vote of `user` on `comment`, if any. */
  function FindVote(votes: seq<Vote>, user: UserId, comment: CommentId): (r: Option<nat>)
    ensures r.Some? ==> r.value < |votes| && IsVoteBy(votes[r.value], user, comment)
    ensures r.Some? ==> forall k :: 0 <= k < r.value ==> !IsVoteBy(votes[k], user, comment)
    ensures r.None? <==> forall k :: 0 <= k < |votes| ==> !IsVoteBy(votes[k], user, comment)
  {
    if votes == [] then None
    else if IsVoteBy(votes[0], user, comment) then Some(0)
    else match FindVote(votes[1..], user, comment)
      case None => None
      case Some(k) => Some(k + 1)
  }

  /**
   * `get_user_vote`: the type of the user's first vote on the comment, or
   * None exactly when the user has no vote on it.
   */
  function GetUserVote(votes: seq<Vote>, user: UserId, comment: CommentId): (r: Option<string>)
    ensures r.None? <==> forall k :: 0 <= k < |votes| ==> !IsVoteBy(votes[k], user, comment)
    ensures r.Some? ==> exists k :: 0 <= k < |votes| && IsVoteBy(votes[k], user, comment) && votes[k].voteType == r.value
  {
    match FindVote(votes, user, comment)
    case None => None
    case Some(k) => Some(votes[k].voteType)
  }

  /** With one vote per (user, comment), `get_user_vote` returns the type of THE vote, whichever row it is in. */
  lemma UserVoteIsTheVote(votes: seq<Vote>, k: nat)
    requires UniqueVotes(votes)
    requires k < |votes|
    ensures GetUserVote(votes, votes[k].user, votes[k].comment) == Some(votes[k].voteType)
  {
    var f := FindVote(votes, votes[k].user, votes[k].comment);
    assert f.Some?;
  }

  /** The first comment with this id (`Comment.objects.get(id=id)`), if any. */
  function FindComment(comments: seq<Comment>, id: int): (r: Option<Comment>)
    ensures r.Some? ==> r.value in comments && r.value.id == id
    ensures r.None? <==> forall k :: 0 <= k < |comments| ==> comments[k].id != id
  {
    if comments == [] then None
    else if comments[0].id == id then Some(comments[0])
    else FindComment(comments[1..], id)
  }

  /** `get_replies`: every comment whose parent is `c`, deleted ones included, oldest first. */
  function GetReplies(comments: seq<Comment>, c: Comment): (r: seq<Comment>)
    ensures SortedBy(r, CreatedAt, false)
    ensures forall x :: multiset(r)[x] == if x.parent == Some(c.id) then multiset(comments)[x] else 0
  {
    OrderBy(Filter(comments, (x: Comment) => x.parent == Some(c.id)), CreatedAt, false)
  }
}
