/**
 * The HTML views of comments/views.py that change or read the comment
 * store: the page view with its comment form and broadcasts, the vote
 * toggle, and editing and soft deletion of a comment.  A view receives the
 * requesting user, the URL's id and the POST data, if any; rendering,
 * flash messages and redirects are reduced to the response kind and the
 * data it carries.
 */
module Views {
  import opened Wrappers
  import opened Models
  import opened Ledger
  import opened Wire
  import opened Channels
  import opened Store
  import opened Listings
  import opened Forms

  // ---- annotate_comments ---------------------------------------------------

  /** A comment with what the template shows for the requesting user. */
  datatype AnnotatedComment = AnnotatedComment(comment: Comment, userVote: Option<string>, canEdit: bool, canDelete: bool)

  /** What `annotate_comments` attaches to one comment. */
  function Annotation(c: Comment, votes: seq<Vote>, user: User, now: int, timeoutMinutes: int): AnnotatedComment {
    AnnotatedComment(c, if user.IsAuthenticated() then GetUserVote(votes, user.id, c.id) else None,
                     CanBeEditedBy(c, user, now, timeoutMinutes), CanBeDeletedBy(c, user))
  }

  /** `listing` is `comments` in their order, each with its annotation. */
  predicate Annotates(listing: seq<AnnotatedComment>, comments: seq<Comment>, votes: seq<Vote>, user: User,
                      now: int, timeoutMinutes: int) {
    && |listing| == |comments|
    && forall i :: 0 <= i < |comments| ==> listing[i] == Annotation(comments[i], votes, user, now, timeoutMinutes)
  }

  /**
   * The comments in their order, each with the user's own vote (none for an
   * anonymous user) and the edit and delete permissions of the user.
   */
  method AnnotateComments(comments: seq<Comment>, votes: seq<Vote>, user: User, now: int, timeoutMinutes: int)
    returns (annotated: seq<AnnotatedComment>)
    ensures |annotated| == |comments|
    ensures forall i :: 0 <= i < |comments| ==> annotated[i].comment == comments[i]
    ensures forall i :: 0 <= i < |comments| ==>
              annotated[i].userVote == if user.IsAuthenticated() then GetUserVote(votes, user.id, comments[i].id) else None
    ensures forall i :: 0 <= i < |comments| ==>
              && annotated[i].canEdit == CanBeEditedBy(comments[i], user, now, timeoutMinutes)
              && annotated[i].canDelete == CanBeDeletedBy(comments[i], user)
    ensures Annotates(annotated, comments, votes, user, now, timeoutMinutes)
  {
    annotated := [];
    for i := 0 to |comments|
      invariant |annotated| == i
      invariant forall j :: 0 <= j < i ==> annotated[j] == Annotation(comments[j], votes, user, now, timeoutMinutes)
    {
      var userVote: Option<string>;
      if user.IsAuthenticated() {
        userVote := GetUserVote(votes, user.id, comments[i].id);
      } else {
        userVote := None;
      }
      var canEdit := CanBeEditedBy(comments[i], user, now, timeoutMinutes);
      var canDelete := CanBeDeletedBy(comments[i], user);
      annotated := annotated + [AnnotatedComment(comments[i], userVote, canEdit, canDelete)];
    }
  }

  // ---- vote_comment ----------------------------------------------------------

  datatype VoteResponse =
    | VoteLoginRequired
    | VoteNotFound
    | VoteInvalidType(pageId: PageId)
    | Voted(action: VoteAction, upvotes: nat, downvotes: nat, score: int, userVote: Option<string>, pageId: PageId)

  /**
   * `vote_comment`: a signed-in user's "up" or "down" toggles their vote on
   * an existing comment (deleted or not); any other vote type changes
   * nothing.  The response carries the counts and the user's vote after
   * the change.
   */
  method VoteComment(db: Database, user: User, commentId: nat, voteType: Option<string>) returns (r: VoteResponse)
    requires db.Valid()
    modifies db
    ensures db.Valid()
    ensures db.pages == old(db.pages) && db.comments == old(db.comments)
    ensures !r.Voted? ==> db.votes == old(db.votes)
    ensures r.VoteLoginRequired? <==> !user.IsAuthenticated()
    ensures r.VoteNotFound? <==> user.IsAuthenticated() && FindComment(old(db.comments), commentId).None?
    ensures r.VoteInvalidType? <==>
              && user.IsAuthenticated() && FindComment(old(db.comments), commentId).Some?
              && voteType != Some(Up) && voteType != Some(Down)
    ensures r.Voted? ==>
              var c := FindComment(old(db.comments), commentId).value;
              var b := CastVote(old(db.votes), user.id, c.id, voteType.value);
              && db.votes == b.votes && r.action == b.action && r.pageId == c.page
              && r.upvotes == UpvoteCount(db.votes, c.id) && r.downvotes == DownvoteCount(db.votes, c.id)
              && r.score == r.upvotes - r.downvotes
              && r.userVote == if b.action == Removed then None else voteType
  {
    if !user.IsAuthenticated() {
      return VoteLoginRequired;
    }
    var found := FindComment(db.comments, commentId);
    if found.None? {
      return VoteNotFound;
    }
    var comment := found.value;
    if voteType != Some(Up) && voteType != Some(Down) {
      return VoteInvalidType(comment.page);
    }
    var t := voteType.value;
    ghost var before := db.votes;
    var action: VoteAction;
    var existing := FindVote(db.votes, user.id, comment.id);
    match existing {
      case Some(i) =>
        if db.votes[i].voteType == t {
          db.votes := RemoveAt(db.votes, i);
          action := Removed;
        } else {
          db.votes := db.votes[i := db.votes[i].(voteType := t)];
          action := Changed;
        }
      case None =>
        db.votes := db.votes + [Vote(user.id, comment.id, t)];
        action := Added;
    }
    assert db.votes == CastVote(before, user.id, comment.id, t).votes;
    CastVoteKeepsUnique(before, user.id, comment.id, t);
    CastVoteUserVote(before, user.id, comment.id, t);
    var up := UpvoteCount(db.votes, comment.id);
    var down := DownvoteCount(db.votes, comment.id);
    r := Voted(action, up, down, Score(db.votes, comment.id), GetUserVote(db.votes, user.id, comment.id), comment.page);
  }

  // ---- page_detail -----------------------------------------------------------

  datatype PageResponse =
    | PageNotFound
    | PageRendered(comments: seq<AnnotatedComment>, formErrors: seq<string>)
    | CommentCreated(comment: Comment)

  const ReplyText: string := " replied to your comment"

  function ParentIdOf(parent: Option<Comment>): Option<CommentId> {
    match parent
    case None => None
    case Some(p) => Some(p.id)
  }

  /** The `comment` dictionary of the `comment_message` event. */
  function Summary(c: Comment, author: string): CommentSummary {
    CommentSummary(c.id, author, c.content, c.createdAt, match c.parent case None => None case Some(p) => Some(p))
  }

  /**
   * The group sends that follow a new comment, in their order: the new
   * comment to the page's room, then, for a reply to somebody else's
   * comment, a notification to the personal group of that comment's author.
   */
  function Announcements(c: Comment, replier: UserId, username: string, parent: Option<Comment>): (plan: seq<(GroupName, Event)>)
    ensures 1 <= |plan| <= 2
    ensures plan[0] == (RoomGroup(c.page), CommentEvent(CommentSummary(c.id, username, c.content, c.createdAt,
                                                                       if c.parent.Some? then Some(c.parent.value) else None)))
    ensures |plan| == 2 <==> parent.Some? && parent.value.author != replier
    ensures |plan| == 2 ==>
              plan[1] == (NotificationGroup(parent.value.author), NotificationEvent(username + ReplyText, Some(c.id), Some(c.page)))
  {
    [(RoomGroup(c.page), CommentEvent(Summary(c, username)))]
    + if parent.Some? && parent.value.author != replier
      then [(NotificationGroup(parent.value.author), NotificationEvent(username + ReplyText, Some(c.id), Some(c.page)))]
      else []
  }

  /**
   * What each channel receives from the announcements of a new comment: the
   * comment if it is in the page's room, and the notification if the
   * comment is a reply to another user and the channel is in that user's
   * notification group.
   */
  lemma AnnouncementDelivery(queues: map<ChannelName, seq<Event>>, groups: map<GroupName, set<ChannelName>>,
                             c: Comment, replier: UserId, username: string, parent: Option<Comment>, ch: ChannelName)
    ensures var plan := Announcements(c, replier, username, parent);
            QueueOf(SendAll(queues, groups, plan), ch) ==
              QueueOf(queues, ch)
              + (if ch in MembersOf(groups, RoomGroup(c.page)) then [plan[0].1] else [])
              + (if parent.Some? && parent.value.author != replier && ch in MembersOf(groups, NotificationGroup(parent.value.author))
                 then [NotificationEvent(username + ReplyText, Some(c.id), Some(c.page))] else [])
  {
    var plan := Announcements(c, replier, username, parent);
    SendAllQueue(queues, groups, plan, ch);
    EventsForShort(groups, plan, ch);
    var room := if ch in MembersOf(groups, plan[0].0) then [plan[0].1] else [];
    var personal := if |plan| == 2 && ch in MembersOf(groups, plan[1].0) then [plan[1].1] else [];
    AppendAssociative(QueueOf(queues, ch), room, personal);
  }

  /** The sends made when the one numbered `failAt`, if any, raises: the comment is kept either way. */
  function Attempted(plan: seq<(GroupName, Event)>, failAt: Option<nat>): (sent: seq<(GroupName, Event)>)
    ensures sent <= plan
    ensures failAt.None? ==> sent == plan
    ensures failAt.Some? && failAt.value < |plan| ==> sent == plan[..failAt.value]
    ensures failAt.Some? && failAt.value >= |plan| ==> sent == plan
  {
    match failAt
    case None => plan
    case Some(k) => if k < |plan| then plan[..k] else plan
  }

  /**
   * One `group_send` of a new comment's announcements.  Its precondition is
   * the order the view keeps: the comment is already stored and the page's
   * cache entry already gone when anything is sent.
   */
  method Broadcast(db: Database, cache: Cache, layer: ChannelLayer, c: Comment, g: GroupName, ev: Event)
    requires c in db.comments
    requires CacheKey(c.page) !in cache.keys
    modifies layer
    ensures layer.queues == Deliver(old(layer.queues), old(layer.Members(g)), ev)
    ensures layer.groups == old(layer.groups)
  {
    layer.GroupSend(g, ev);
  }

  /**
   * The announcements of a stored comment, sent in order until the send
   * numbered `failAt`, if any, raises; the rest are not sent.
   */
  method Announce(db: Database, cache: Cache, layer: ChannelLayer, c: Comment,
                  plan: seq<(GroupName, Event)>, failAt: Option<nat>)
    requires c in db.comments
    requires CacheKey(c.page) !in cache.keys
    requires 1 <= |plan| <= 2
    modifies layer
    ensures layer.queues == SendAll(old(layer.queues), old(layer.groups), Attempted(plan, failAt))
    ensures layer.groups == old(layer.groups)
  {
    ghost var q0, groups := layer.queues, layer.groups;
    if failAt != Some(0) {
      Broadcast(db, cache, layer, c, plan[0].0, plan[0].1);
      ghost var q1 := layer.queues;
      assert q1 == Deliver(q0, MembersOf(groups, plan[0].0), plan[0].1);
      if |plan| == 2 && failAt != Some(1) {
        Broadcast(db, cache, layer, c, plan[1].0, plan[1].1);
        assert Attempted(plan, failAt) == plan;
        assert plan[1..][1..] == [];
        assert SendAll(q1, groups, plan[1..]) == SendAll(layer.queues, groups, plan[1..][1..]);
      } else {
        assert Attempted(plan, failAt) == plan[..1];
        assert plan[..1][1..] == [];
      }
    } else {
      assert Attempted(plan, failAt) == [];
    }
  }

  /** The comment a valid form creates: the next id, the page, the user, the stripped content, the time and the cleaned parent. */
  function NewCommentOf(comments: seq<Comment>, pageId: PageId, author: UserId, data: CommentFormData, now: int): Comment
    requires CleanParentId(comments, data.parentId).Success?
  {
    Comment(|comments| + 1, pageId, author, CleanContent(data), now, ParentIdOf(CleanParentId(comments, data.parentId).value), false)
  }

  /**
   * The successful POST of `page_detail`: save the comment, drop the page's
   * cache entry, then announce it.
   */
  method CreateComment(db: Database, cache: Cache, layer: ChannelLayer, pageId: PageId, user: User,
                       data: CommentFormData, now: int, failAt: Option<nat>) returns (comment: Comment)
    requires db.Valid()
    requires user.IsAuthenticated()
    requires FormErrors(db.comments, data) == []
    modifies db, cache, layer
    ensures db.Valid()
    ensures db.pages == old(db.pages) && db.votes == old(db.votes)
    ensures comment == NewCommentOf(old(db.comments), pageId, user.id, data, now)
    ensures db.comments == old(db.comments) + [comment]
    ensures cache.keys == old(cache.keys) - {CacheKey(pageId)}
    ensures layer.groups == old(layer.groups)
    ensures layer.queues == SendAll(old(layer.queues), old(layer.groups),
                                    Attempted(Announcements(comment, user.id, user.username,
                                                            CleanParentId(old(db.comments), data.parentId).value), failAt))
  {
    var parent := CleanParentId(db.comments, data.parentId).value;
    comment := NewCommentOf(db.comments, pageId, user.id, data, now);
    db.comments := db.comments + [comment];
    cache.Delete(CacheKey(pageId));
    Announce(db, cache, layer, comment, Announcements(comment, user.id, user.username, parent), failAt);
  }

  /**
   * The page from the cache, or else from the database, in which case it is
   * put in the cache; `false` is the 404 of `get_object_or_404`.
   */
  method FetchPage(db: Database, cache: Cache, pageId: PageId) returns (found: bool)
    modifies cache
    ensures found <==> CacheKey(pageId) in old(cache.keys) || pageId in db.pages
    ensures cache.keys == if found then old(cache.keys) + {CacheKey(pageId)} else old(cache.keys)
  {
    var key := CacheKey(pageId);
    found := true;
    if key !in cache.keys {
      if pageId !in db.pages {
        return false;
      }
      cache.Set(key);
    }
  }

  /** A POST that creates a comment: by a signed-in user, with a form that validates. */
  predicate AcceptsPost(comments: seq<Comment>, user: User, post: Option<CommentFormData>) {
    post.Some? && user.IsAuthenticated() && FormErrors(comments, post.value) == []
  }

  /**
   * `page_detail`.  The page comes from the cache or the database (404 when
   * neither has it) and its top-level comments are listed, newest first,
   * with the user's annotations.  A valid POST by a signed-in user stores a
   * new comment, drops the page's cache entry, then announces the comment;
   * `failAt` is the send that raises, if one does, and the comment stays
   * stored whatever happens to the announcements.
   */
  method PageDetail(db: Database, cache: Cache, layer: ChannelLayer, pageId: PageId, user: User,
                    post: Option<CommentFormData>, now: int, timeoutMinutes: int, failAt: Option<nat>)
    returns (r: PageResponse)
    requires db.Valid()
    modifies db, cache, layer
    ensures db.Valid()
    ensures db.pages == old(db.pages) && db.votes == old(db.votes)
    ensures layer.groups == old(layer.groups)
    ensures r.PageNotFound? <==> CacheKey(pageId) !in old(cache.keys) && pageId !in old(db.pages)
    ensures r.PageNotFound? ==>
              db.comments == old(db.comments) && cache.keys == old(cache.keys) && layer.queues == old(layer.queues)
    ensures r.PageRendered? ==>
              && db.comments == old(db.comments) && cache.keys == old(cache.keys) + {CacheKey(pageId)}
              && layer.queues == old(layer.queues)
              && Annotates(r.comments, PageTopLevel(old(db.comments), pageId), old(db.votes), user, now, timeoutMinutes)
              && r.formErrors == if post.Some? && user.IsAuthenticated() then FormErrors(old(db.comments), post.value) else []
    ensures r.CommentCreated? <==>
              (CacheKey(pageId) in old(cache.keys) || pageId in old(db.pages)) && AcceptsPost(old(db.comments), user, post)
    ensures r.CommentCreated? ==>
              && r.comment == NewCommentOf(old(db.comments), pageId, user.id, post.value, now)
              && db.comments == old(db.comments) + [r.comment]
              && cache.keys == old(cache.keys) - {CacheKey(pageId)}
              && layer.queues == SendAll(old(layer.queues), old(layer.groups),
                                         Attempted(Announcements(r.comment, user.id, user.username,
                                                                 CleanParentId(old(db.comments), post.value.parentId).value), failAt))
  {
    var found := FetchPage(db, cache, pageId);
    if !found {
      return PageNotFound;
    }
    var listing := AnnotateComments(PageTopLevel(db.comments, pageId), db.votes, user, now, timeoutMinutes);
    if AcceptsPost(db.comments, user, post) {
      var comment := CreateComment(db, cache, layer, pageId, user, post.value, now, failAt);
      return CommentCreated(comment);
    }
    return PageRendered(listing, if post.Some? && user.IsAuthenticated() then FormErrors(db.comments, post.value) else []);
  }

  // ---- edit_comment and delete_comment ---------------------------------------

  datatype EditResponse =
    | EditLoginRequired
    | EditNotFound
    | EditRefused(pageId: PageId)
    | EditFormShown(comment: Comment)
    | EditFormRejected(comment: Comment, errors: seq<string>)
    | Edited(comment: Comment)

  /**
   * `edit_comment`: only a user who may edit the comment (its author, within
   * the edit window, while it is not deleted) gets the form, and a valid
   * POST replaces the content and nothing else and drops the page's cache
   * entry.
   */
  method EditComment(db: Database, cache: Cache, user: User, commentId: nat, post: Option<CommentFormData>,
                     now: int, timeoutMinutes: int) returns (r: EditResponse)
    requires db.Valid()
    modifies db, cache
    ensures db.Valid()
    ensures db.pages == old(db.pages) && db.votes == old(db.votes)
    ensures r.EditLoginRequired? <==> !user.IsAuthenticated()
    ensures r.EditNotFound? <==> user.IsAuthenticated() && FindComment(old(db.comments), commentId).None?
    ensures r.EditRefused? <==>
              && user.IsAuthenticated() && FindComment(old(db.comments), commentId).Some?
              && !CanBeEditedBy(FindComment(old(db.comments), commentId).value, user, now, timeoutMinutes)
    ensures r.EditFormShown? || r.EditFormRejected? || r.Edited? ==>
              && FindComment(old(db.comments), commentId).Some?
              && CanBeEditedBy(FindComment(old(db.comments), commentId).value, user, now, timeoutMinutes)
    ensures r.EditFormShown? <==>
              && user.IsAuthenticated() && FindComment(old(db.comments), commentId).Some?
              && CanBeEditedBy(FindComment(old(db.comments), commentId).value, user, now, timeoutMinutes)
              && post.None?
    ensures r.EditFormRejected? ==> post.Some? && r.errors == FormErrors(old(db.comments), post.value) && r.errors != []
    ensures r.Edited? <==>
              && user.IsAuthenticated() && FindComment(old(db.comments), commentId).Some?
              && CanBeEditedBy(FindComment(old(db.comments), commentId).value, user, now, timeoutMinutes)
              && post.Some? && FormErrors(old(db.comments), post.value) == []
    ensures r.Edited? ==>
              var c := FindComment(old(db.comments), commentId).value;
              && r.comment == c.(content := CleanContent(post.value))
              && db.comments == ReplaceComment(old(db.comments), r.comment)
              && FindComment(db.comments, commentId) == Some(r.comment)
              && cache.keys == old(cache.keys) - {CacheKey(c.page)}
    ensures !r.Edited? ==> db.comments == old(db.comments) && cache.keys == old(cache.keys)
  {
    if !user.IsAuthenticated() {
      return EditLoginRequired;
    }
    var found := FindComment(db.comments, commentId);
    if found.None? {
      return EditNotFound;
    }
    var comment := found.value;
    if !CanBeEditedBy(comment, user, now, timeoutMinutes) {
      return EditRefused(comment.page);
    }
    if post.None? {
      return EditFormShown(comment);
    }
    var errors := FormErrors(db.comments, post.value);
    if errors != [] {
      return EditFormRejected(comment, errors);
    }
    var edited := comment.(content := CleanContent(post.value));
    db.Save(edited);
    cache.Delete(CacheKey(comment.page));
    return Edited(edited);
  }

  datatype DeleteResponse =
    | DeleteLoginRequired
    | DeleteNotFound
    | DeleteRefused(pageId: PageId)
    | Deleted(comment: Comment)

  /**
   * `delete_comment`: a user who may delete the comment marks it deleted,
   * keeping the row, and drops the page's cache entry; anyone else changes
   * nothing.
   */
  method DeleteComment(db: Database, cache: Cache, user: User, commentId: nat) returns (r: DeleteResponse)
    requires db.Valid()
    modifies db, cache
    ensures db.Valid()
    ensures db.pages == old(db.pages) && db.votes == old(db.votes)
    ensures |db.comments| == |old(db.comments)|
    ensures r.DeleteLoginRequired? <==> !user.IsAuthenticated()
    ensures r.DeleteNotFound? <==> user.IsAuthenticated() && FindComment(old(db.comments), commentId).None?
    ensures r.DeleteRefused? <==>
              && user.IsAuthenticated() && FindComment(old(db.comments), commentId).Some?
              && !CanBeDeletedBy(FindComment(old(db.comments), commentId).value, user)
    ensures r.Deleted? <==>
              FindComment(old(db.comments), commentId).Some? && CanBeDeletedBy(FindComment(old(db.comments), commentId).value, user)
    ensures r.Deleted? ==>
              var c := FindComment(old(db.comments), commentId).value;
              && r.comment == SoftDeleted(c)
              && db.comments == ReplaceComment(old(db.comments), r.comment)
              && FindComment(db.comments, commentId) == Some(r.comment)
              && cache.keys == old(cache.keys) - {CacheKey(c.page)}
    ensures !r.Deleted? ==> db.comments == old(db.comments) && cache.keys == old(cache.keys)
  {
    if !user.IsAuthenticated() {
      return DeleteLoginRequired;
    }
    var found := FindComment(db.comments, commentId);
    if found.None? {
      return DeleteNotFound;
    }
    var comment := found.value;
    if !CanBeDeletedBy(comment, user) {
      return DeleteRefused(comment.page);
    }
    var deleted := SoftDeleted(comment);
    db.Save(deleted);
    cache.Delete(CacheKey(comment.page));
    return Deleted(deleted);
  }
}
