/**
 * The two comment listings the HTML views and the REST API share: the
 * top-level comments of a page, newest first, and the replies of a
 * comment, oldest first, in both cases without soft-deleted comments.
 */
module Listings {
  import opened Wrappers
  import opened Queries
  import opened Models

  /** The row filter of the page listing: on the page, top-level, not deleted. */
  function IsLiveTopLevelOn(pageId: int): Comment -> bool {
    (x: Comment) => x.page == pageId && x.parent.None? && !x.isDeleted
  }

  /** The row filter of the reply listing: a direct reply, not deleted. */
  function IsLiveReplyOf(parentId: CommentId): Comment -> bool {
    (x: Comment) => x.parent == Some(parentId) && !x.isDeleted
  }

  /** `Comment.objects.filter(page=page, parent__isnull=True, is_deleted=False).order_by('-created_at')`. */
  function PageTopLevel(comments: seq<Comment>, pageId: int): (r: seq<Comment>)
    ensures SortedBy(r, CreatedAt, true)
    ensures forall x :: multiset(r)[x] ==
              if x.page == pageId && x.parent.None? && !x.isDeleted then multiset(comments)[x] else 0
    ensures forall x :: x in r <==> x in comments && x.page == pageId && x.parent.None? && !x.isDeleted
  {
    OrderBy(Filter(comments, IsLiveTopLevelOn(pageId)), CreatedAt, true)
  }

  /** `Comment.objects.filter(parent=parent, is_deleted=False).order_by('created_at')`. */
  function LiveReplies(comments: seq<Comment>, parentId: CommentId): (r: seq<Comment>)
    ensures SortedBy(r, CreatedAt, false)
    ensures forall x :: multiset(r)[x] ==
              if x.parent == Some(parentId) && !x.isDeleted then multiset(comments)[x] else 0
    ensures forall x :: x in r <==> x in comments && x.parent == Some(parentId) && !x.isDeleted
  {
    OrderBy(Filter(comments, IsLiveReplyOf(parentId)), CreatedAt, false)
  }
}
