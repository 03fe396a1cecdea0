/**
 * The REST endpoints of comments/api_views.py.  The query-set logic
 * (`get_queryset`, `get_object`, the `replies` and `comments` actions) is
 * pure; `vote`, `update` and `destroy` change rows of the store.  The API
 * stores vote types as the text of the numbers 1 and -1, apart from the
 * "up"/"down" of the HTML views.
 */
module ApiViews {
  import opened Wrappers
  import opened JsonValues
  import opened Text
  import opened Queries
  import opened Models
  import opened Ledger
  import opened Store
  import opened Listings
  import opened Serializers

  /** The `page` and `parent` query parameters; `None` when absent. */
  datatype QueryParams = QueryParams(page: Option<string>, parent: Option<string>)

  datatype ApiError =
    | NotAuthenticated               // the permission check refuses an anonymous user
    | NotFound                       // 404
    | Forbidden(message: string)     // 403
    | BadRequest(message: string)    // 400 from the view
    | Invalid(fields: seq<string>)   // 400 from the serializer, naming the fields in error
    | ServerError                    // a ValueError from a filter value that is no integer

  // ---- get_queryset and get_object -------------------------------------------

  predicate PageFilterOn(params: QueryParams) {
    params.page.Some? && params.page.value != ""
  }

  predicate TopLevelFilterOn(params: QueryParams) {
    params.parent == Some("null") || params.parent == Some("")
  }

  predicate ParentFilterOn(params: QueryParams) {
    params.parent.Some? && !TopLevelFilterOn(params)
  }

  /** A filter value the database layer cannot turn into an id. */
  predicate BadParams(params: QueryParams) {
    || (PageFilterOn(params) && ParseInt(params.page.value).None?)
    || (ParentFilterOn(params) && ParseInt(params.parent.value).None?)
  }

  /** The rows `get_queryset` keeps: not deleted, and on the page and under the parent the parameters ask for. */
  predicate Selects(params: QueryParams, x: Comment) {
    && !x.isDeleted
    && (PageFilterOn(params) ==> ParseInt(params.page.value) == Some(x.page as int))
    && (TopLevelFilterOn(params) ==> x.parent.None?)
    && (ParentFilterOn(params) ==> x.parent.Some? && ParseInt(params.parent.value) == Some(x.parent.value as int))
  }

  function PageStep(rows: seq<Comment>, params: QueryParams): Result<seq<Comment>, ApiError> {
    if !PageFilterOn(params) then Success(rows)
    else match ParseInt(params.page.value)
      case None => Failure(ServerError)
      case Some(p) => Success(Filter(rows, (x: Comment) => x.page as int == p))
  }

  function ParentStep(rows: seq<Comment>, params: QueryParams): Result<seq<Comment>, ApiError> {
    if TopLevelFilterOn(params) then Success(Filter(rows, (x: Comment) => x.parent.None?))
    else if !ParentFilterOn(params) then Success(rows)
    else match ParseInt(params.parent.value)
      case None => Failure(ServerError)
      case Some(q) => Success(Filter(rows, (x: Comment) => x.parent.Some? && x.parent.value as int == q))
  }

  /**
   * `CommentViewSet.get_queryset`: the comments that are not deleted,
   * narrowed by the `page` parameter when it is non-empty, to the top-level
   * ones when `parent` is "null" or empty, and to the replies of `parent`
   * otherwise; a filter value that is no integer makes it fail.
   */
  function GetQueryset(comments: seq<Comment>, params: QueryParams): (r: Result<seq<Comment>, ApiError>)
    ensures r.Failure? <==> BadParams(params)
    ensures r.Failure? ==> r.error == ServerError
    ensures r.Success? ==> forall x :: multiset(r.value)[x] == if Selects(params, x) then multiset(comments)[x] else 0
    ensures r.Success? ==> forall x :: x in r.value <==> x in comments && Selects(params, x)
  {
    var live := Filter(comments, (x: Comment) => !x.isDeleted);
    match PageStep(live, params)
    case Failure(e) => Failure(e)
    case Success(onPage) =>
      var r := ParentStep(onPage, params);
      assert r.Success? ==> forall x :: x in r.value <==> x in multiset(r.value);
      r
  }

  /**
   * `get_object`: the comment of the query set whose id is the URL's `pk`;
   * a `pk` that is no integer, or that no selected comment has, is a 404.
   */
  function GetObject(comments: seq<Comment>, params: QueryParams, pk: string): (r: Result<Comment, ApiError>)
    ensures BadParams(params) ==> r == Failure(ServerError)
    ensures r.Success? ==> r.value in comments && Selects(params, r.value) && ParseInt(pk) == Some(r.value.id as int)
    ensures !BadParams(params) ==>
              (r == Failure(NotFound) <==>
                 ParseInt(pk).None? || forall x :: x in comments && Selects(params, x) ==> ParseInt(pk) != Some(x.id as int))
    ensures !BadParams(params) ==>
              (r.Success? <==>
                 ParseInt(pk).Some? && exists x :: x in comments && Selects(params, x) && x.id as int == ParseInt(pk).value)
  {
    match GetQueryset(comments, params)
    case Failure(e) => Failure(e)
    case Success(qs) =>
      match ParseInt(pk)
      case None => Failure(NotFound)
      case Some(id) =>
        match FindComment(qs, id)
        case None => Failure(NotFound)
        case Some(c) => Success(c)
  }

  // ---- the replies and comments actions ---------------------------------------

  /** `replies`: the non-deleted direct replies of the selected comment, oldest first. */
  function Replies(comments: seq<Comment>, params: QueryParams, pk: string): (r: Result<seq<Comment>, ApiError>)
    ensures r.Success? <==> GetObject(comments, params, pk).Success?
    ensures GetObject(comments, params, pk).Failure? ==> r == Failure(GetObject(comments, params, pk).error)
    ensures r.Success? ==>
              var p := GetObject(comments, params, pk).value;
              && SortedBy(r.value, CreatedAt, false)
              && forall x :: multiset(r.value)[x] ==
                   if x.parent == Some(p.id) && !x.isDeleted then multiset(comments)[x] else 0
  {
    match GetObject(comments, params, pk)
    case Failure(e) => Failure(e)
    case Success(p) => Success(LiveReplies(comments, p.id))
  }

  /** `PageViewSet.comments`: the non-deleted top-level comments of the page, newest first; 404 for an unknown page. */
  function PageComments(pages: set<PageId>, comments: seq<Comment>, pk: string): (r: Result<seq<Comment>, ApiError>)
    ensures r.Failure? ==> r.error == NotFound
    ensures r.Success? <==> exists p: PageId :: p in pages && ParseInt(pk) == Some(p)
    ensures r.Success? ==>
              var p := ParseInt(pk).value;
              && SortedBy(r.value, CreatedAt, true)
              && forall x :: multiset(r.value)[x] ==
                   if x.page as int == p && x.parent.None? && !x.isDeleted then multiset(comments)[x] else 0
  {
    match ParseInt(pk)
    case None => Failure(NotFound)
    case Some(p) =>
      if p >= 0 && p as PageId in pages then Success(PageTopLevel(comments, p)) else Failure(NotFound)
  }

  // ---- the vote counts of the API --------------------------------------------

  /** The stored vote types of the API, `str(1)` and `str(-1)`. */
  const ApiUp: string := "1"
  const ApiDown: string := "-1"

  /** The `upvotes`, `downvotes` and `net_votes` annotations and the computed fields of `CommentSerializer`. */
  datatype CommentData = CommentData(comment: Comment, upvotes: nat, downvotes: nat, netVotes: int,
                                     userVote: Option<string>, repliesCount: nat)

  function Serialize(comments: seq<Comment>, votes: seq<Vote>, user: User, c: Comment): (d: CommentData)
    ensures d.comment == c
    ensures d.netVotes == d.upvotes - d.downvotes
    ensures d.upvotes == CountVotes(votes, c.id, ApiUp) && d.downvotes == CountVotes(votes, c.id, ApiDown)
    ensures d.userVote == UserVote(votes, user, c)
    ensures d.repliesCount == |LiveReplies(comments, c.id)|
  {
    CommentData(c, CountVotes(votes, c.id, ApiUp), CountVotes(votes, c.id, ApiDown), NetVotes(votes, c.id),
                UserVote(votes, user, c), RepliesCount(comments, c))
  }

  // ---- vote -------------------------------------------------------------------

  const VoteTypeText: string := "vote_type must be 1 (upvote) or -1 (downvote)"

  /** The request's `vote_type` when it is the number 1 or -1. */
  function ApiVoteValue(field: Option<Json>): (v: Option<int>)
    ensures v.Some? <==> field == Some(JInt(1)) || field == Some(JInt(-1))
    ensures v.Some? ==> field == Some(JInt(v.value))
  {
    match field
    case Some(JInt(i)) => if i == 1 || i == -1 then Some(i) else None
    case _ => None
  }

  /** The body text and status code of each outcome of the vote action. */
  function VoteStatus(a: VoteAction): (string, int) {
    match a
    case Added => ("vote added", 201)
    case Removed => ("vote removed", 200)
    case Changed => ("vote changed", 200)
  }

  /**
   * The toggle as it is written: the stored vote type is the text "1" or
   * "-1", the requested one is the number, and Python's `==` between a text
   * and a number is false, so an existing vote is never removed; it is
   * rewritten with the requested type.  Wherever the intended toggle
   * (`CastVote` on the text of the number) would not remove, the two agree;
   * where it would, the rows are left as they were and the answer is
   * "vote changed".
   */
  function VoteAsWritten(votes: seq<Vote>, user: UserId, comment: CommentId, v: int): (b: Ballot)
    ensures b.action != Removed
    ensures b.action == Added <==> GetUserVote(votes, user, comment).None?
    ensures |b.votes| == if b.action == Added then |votes| + 1 else |votes|
    ensures GetUserVote(votes, user, comment) != Some(IntToString(v)) ==>
              b == CastVote(votes, user, comment, IntToString(v))
    ensures GetUserVote(votes, user, comment) == Some(IntToString(v)) ==> b == Ballot(votes, Changed)
  {
    match FindVote(votes, user, comment)
    case None => Ballot(votes + [Vote(user, comment, IntToString(v))], Added)
    case Some(i) =>
      // `vote.delete()`: a text never equals a number, so this branch is dead
      if JStr(votes[i].voteType) == JInt(v) then assert false; Ballot(votes, Removed)
      else Ballot(votes[i := Vote(user, comment, IntToString(v))], Changed)
  }

  /** The action as written keeps one vote per (user, comment). */
  lemma VoteAsWrittenKeepsUnique(votes: seq<Vote>, user: UserId, comment: CommentId, v: int)
    requires UniqueVotes(votes)
    ensures UniqueVotes(VoteAsWritten(votes, user, comment, v).votes)
  {
    CastVoteKeepsUnique(votes, user, comment, IntToString(v));
  }

  /** As written, voting 1 twice from no vote answers "vote changed" the second time and keeps the vote. */
  lemma AsWrittenRepeatKeepsVote(user: UserId, comment: CommentId)
    ensures var once := VoteAsWritten([], user, comment, 1);
            var twice := VoteAsWritten(once.votes, user, comment, 1);
            && once.action == Added
            && twice.action == Changed && VoteStatus(twice.action).0 == "vote changed"
            && twice.votes == [Vote(user, comment, ApiUp)]
  {
    var once := VoteAsWritten([], user, comment, 1);
    assert IntToString(1) == ApiUp;
    assert FindVote(once.votes, user, comment) == Some(0);
  }

  /** Compared with the stored text of the number, a repeated vote removes the vote it added. */
  lemma RepeatedApiVoteRemoves(votes: seq<Vote>, user: UserId, comment: CommentId, v: int)
    requires v == 1 || v == -1
    requires GetUserVote(votes, user, comment).None?
    ensures var once := CastVote(votes, user, comment, IntToString(v));
            && once.action == Added && VoteStatus(once.action) == ("vote added", 201)
            && CastVote(once.votes, user, comment, IntToString(v)) == Ballot(votes, Removed)
  {
    DoubleVoteRestoresRows(votes, user, comment, IntToString(v));
  }

  /** The weight of a stored type in `net_votes`: 1 for "1", -1 for "-1", nothing for any other type. */
  function ApiWeight(t: string): int {
    if t == ApiUp then 1 else if t == ApiDown then -1 else 0
  }

  /** `net_votes` of a comment: positive only when some "1" vote exists, negative only when some "-1" vote exists. */
  function NetVotes(votes: seq<Vote>, c: CommentId): (n: int)
    ensures -|votes| <= n <= |votes|
    ensures n > 0 ==> exists k :: 0 <= k < |votes| && IsVoteOn(votes[k], c, ApiUp)
    ensures n < 0 ==> exists k :: 0 <= k < |votes| && IsVoteOn(votes[k], c, ApiDown)
  {
    CountVotes(votes, c, ApiUp) - CountVotes(votes, c, ApiDown)
  }

  /**
   * As written, a vote of `v` moves the comment's net votes by `v`, less
   * the weight of the vote it overwrites; so a repeated vote leaves them
   * where they were, and replacing the opposite vote moves them by `2v`.
   * No other comment's net votes move.
   */
  lemma ApiVoteNetEffect(votes: seq<Vote>, user: UserId, comment: CommentId, v: int, c: CommentId)
    requires v == 1 || v == -1
    ensures var b := VoteAsWritten(votes, user, comment, v);
            NetVotes(b.votes, c) ==
              if c != comment then NetVotes(votes, c)
              else NetVotes(votes, c) + v - (if b.action == Changed then ApiWeight(GetUserVote(votes, user, comment).value) else 0)
  {
    assert IntToString(1) == ApiUp;
    assert IntToString(-1) == ApiDown;
    var t := IntToString(v);
    match FindVote(votes, user, comment)
    case None =>
      CountAppend(votes, Vote(user, comment, t), c, ApiUp);
      CountAppend(votes, Vote(user, comment, t), c, ApiDown);
    case Some(i) =>
      CountReplace(votes, i, Vote(user, comment, t), c, ApiUp);
      CountReplace(votes, i, Vote(user, comment, t), c, ApiDown);
  }

  /**
   * The intended toggle on the text of the number: a vote of `v` moves the
   * comment's net votes by `v` when added, by `-v` when it removes the same
   * vote, and by `v` less the weight of the replaced type when it replaces
   * another; no other comment's net votes move.
   */
  lemma CorrectedApiVoteNetEffect(votes: seq<Vote>, user: UserId, comment: CommentId, v: int, c: CommentId)
    requires v == 1 || v == -1
    ensures var b := CastVote(votes, user, comment, IntToString(v));
            NetVotes(b.votes, c) ==
              if c != comment then NetVotes(votes, c)
              else NetVotes(votes, c) + match b.action
                                        case Added => v
                                        case Removed => -v
                                        case Changed => v - ApiWeight(GetUserVote(votes, user, comment).value)
  {
    assert IntToString(1) == ApiUp;
    assert IntToString(-1) == ApiDown;
    CastVoteCounts(votes, user, comment, IntToString(v), c, ApiUp);
    CastVoteCounts(votes, user, comment, IntToString(v), c, ApiDown);
  }

  /** Under the intended toggle, a vote of `v` over the opposite API vote is a change that moves the net votes by `2v`. */
  lemma CorrectedApiVoteReverses(votes: seq<Vote>, user: UserId, comment: CommentId, v: int)
    requires v == 1 || v == -1
    requires GetUserVote(votes, user, comment) == Some(IntToString(-v))
    ensures var b := CastVote(votes, user, comment, IntToString(v));
            b.action == Changed && NetVotes(b.votes, comment) == NetVotes(votes, comment) + 2 * v
  {
    assert IntToString(1) == ApiUp;
    assert IntToString(-1) == ApiDown;
    CorrectedApiVoteNetEffect(votes, user, comment, v, comment);
  }

  /**
   * `vote`: a signed-in user's vote of 1 or -1 on a selected comment is
   * stored as `str(vote_type)`: added when the user has none, and otherwise
   * written over the user's vote, since the comparison with the stored text
   * never holds; anything else is a 400 and changes nothing.
   */
  method ApiVote(db: Database, user: User, params: QueryParams, pk: string, field: Option<Json>)
    returns (r: Result<VoteAction, ApiError>)
    requires db.Valid()
    modifies db
    ensures db.Valid()
    ensures db.pages == old(db.pages) && db.comments == old(db.comments)
    ensures r.Failure? ==> db.votes == old(db.votes)
    ensures !user.IsAuthenticated() ==> r == Failure(NotAuthenticated)
    ensures user.IsAuthenticated() && GetObject(old(db.comments), params, pk).Failure? ==>
              r == Failure(GetObject(old(db.comments), params, pk).error)
    ensures user.IsAuthenticated() && GetObject(old(db.comments), params, pk).Success? && ApiVoteValue(field).None? ==>
              r == Failure(BadRequest(VoteTypeText))
    ensures user.IsAuthenticated() && GetObject(old(db.comments), params, pk).Success? && ApiVoteValue(field).Some? ==>
              var c := GetObject(old(db.comments), params, pk).value;
              var b := VoteAsWritten(old(db.votes), user.id, c.id, ApiVoteValue(field).value);
              db.votes == b.votes && r == Success(b.action)
  {
    if !user.IsAuthenticated() {
      return Failure(NotAuthenticated);
    }
    var obj := GetObject(db.comments, params, pk);
    if obj.Failure? {
      return Failure(obj.error);
    }
    var comment := obj.value;
    var value := ApiVoteValue(field);
    if value.None? {
      return Failure(BadRequest(VoteTypeText));
    }
    ghost var before := db.votes;
    var existing := FindVote(db.votes, user.id, comment.id);
    match existing {
      case None =>
        db.votes := db.votes + [Vote(user.id, comment.id, IntToString(value.value))];
        r := Success(Added);
      case Some(i) =>
        if JStr(db.votes[i].voteType) == JInt(value.value) {
          // `vote.delete()`: a text never equals a number, so this branch is dead
          assert false;
          r := Success(Removed);
        } else {
          db.votes := db.votes[i := db.votes[i].(voteType := IntToString(value.value))];
          r := Success(Changed);
        }
    }
    assert db.votes == VoteAsWritten(before, user.id, comment.id, value.value).votes;
    VoteAsWrittenKeepsUnique(before, user.id, comment.id, value.value);
  }

  // ---- update and destroy -------------------------------------------------------

  const EditOwnText: string := "You can only edit your own comments."
  const DeleteOwnText: string := "You can only delete your own comments."

  /** The writable fields of `CommentSerializer` a partial update carries. */
  datatype CommentPatch = CommentPatch(page: Option<PageId>, parent: Option<Option<CommentId>>, content: Option<string>)

  /**
   * The fields the serializer refuses: an unknown page, an unknown parent,
   * a content that is empty or all whitespace (the character field trims it)
   * or that holds U+0000 (the field's validator refuses it).
   */
  function PatchErrors(pages: set<PageId>, comments: seq<Comment>, patch: CommentPatch): (errors: seq<string>)
    ensures errors == [] <==>
              && (patch.page.Some? ==> patch.page.value in pages)
              && (patch.parent.Some? && patch.parent.value.Some? ==> FindComment(comments, patch.parent.value.value).Some?)
              && (patch.content.Some? ==> Strip(patch.content.value) != "" && '\0' !in patch.content.value)
    ensures "content" in errors <==>
              patch.content.Some? &&
              ((forall k :: 0 <= k < |patch.content.value| ==> IsSpace(patch.content.value[k])) || '\0' in patch.content.value)
  {
    (if patch.page.Some? && patch.page.value !in pages then ["page"] else [])
    + (if patch.parent.Some? && patch.parent.value.Some? && FindComment(comments, patch.parent.value.value).None?
       then ["parent"] else [])
    + (if patch.content.Some? && (Strip(patch.content.value) == "" || '\0' in patch.content.value) then ["content"] else [])
  }

  /** The comment with the fields the patch carries replaced, the content trimmed as the serializer stores it. */
  function Patched(c: Comment, patch: CommentPatch): (d: Comment)
    ensures d.id == c.id && d.author == c.author && d.createdAt == c.createdAt && d.isDeleted == c.isDeleted
    ensures d.page == (if patch.page.Some? then patch.page.value else c.page)
    ensures d.parent == (if patch.parent.Some? then patch.parent.value else c.parent)
    ensures d.content == (if patch.content.Some? then Strip(patch.content.value) else c.content)
  {
    c.(page := if patch.page.Some? then patch.page.value else c.page,
       parent := if patch.parent.Some? then patch.parent.value else c.parent,
       content := if patch.content.Some? then Strip(patch.content.value) else c.content)
  }

  /**
   * `update`: only the author of a selected comment may change it, at any
   * time; a valid patch is saved, with the id, author, creation time and
   * deleted flag kept.
   */
  method Update(db: Database, user: User, params: QueryParams, pk: string, patch: CommentPatch)
    returns (r: Result<Comment, ApiError>)
    requires db.Valid()
    modifies db
    ensures db.Valid()
    ensures db.pages == old(db.pages) && db.votes == old(db.votes)
    ensures r.Failure? ==> db.comments == old(db.comments)
    ensures !user.IsAuthenticated() ==> r == Failure(NotAuthenticated)
    ensures user.IsAuthenticated() && GetObject(old(db.comments), params, pk).Failure? ==>
              r == Failure(GetObject(old(db.comments), params, pk).error)
    ensures user.IsAuthenticated() && GetObject(old(db.comments), params, pk).Success? ==>
              var c := GetObject(old(db.comments), params, pk).value;
              var errors := PatchErrors(old(db.pages), old(db.comments), patch);
              && (!user.Is(c.author) ==> r == Failure(Forbidden(EditOwnText)))
              && (user.Is(c.author) && errors != [] ==> r == Failure(Invalid(errors)))
              && (user.Is(c.author) && errors == [] ==>
                    && r == Success(Patched(c, patch))
                    && db.comments == ReplaceComment(old(db.comments), r.value)
                    && FindComment(db.comments, c.id) == Some(r.value))
  {
    if !user.IsAuthenticated() {
      return Failure(NotAuthenticated);
    }
    var obj := GetObject(db.comments, params, pk);
    if obj.Failure? {
      return Failure(obj.error);
    }
    var comment := obj.value;
    if !user.Is(comment.author) {
      return Failure(Forbidden(EditOwnText));
    }
    var errors := PatchErrors(db.pages, db.comments, patch);
    if errors != [] {
      return Failure(Invalid(errors));
    }
    var saved := Patched(comment, patch);
    db.Save(saved);
    return Success(saved);
  }

  /**
   * `destroy`: only the author of a selected comment may delete it; the row
   * is kept with its deleted flag set.  `None` is the 204 No Content answer.
   */
  method Destroy(db: Database, user: User, params: QueryParams, pk: string) returns (r: Option<ApiError>)
    requires db.Valid()
    modifies db
    ensures db.Valid()
    ensures db.pages == old(db.pages) && db.votes == old(db.votes)
    ensures |db.comments| == |old(db.comments)|
    ensures r.Some? ==> db.comments == old(db.comments)
    ensures !user.IsAuthenticated() ==> r == Some(NotAuthenticated)
    ensures user.IsAuthenticated() && GetObject(old(db.comments), params, pk).Failure? ==>
              r == Some(GetObject(old(db.comments), params, pk).error)
    ensures user.IsAuthenticated() && GetObject(old(db.comments), params, pk).Success? ==>
              var c := GetObject(old(db.comments), params, pk).value;
              && (!user.Is(c.author) ==> r == Some(Forbidden(DeleteOwnText)))
              && (user.Is(c.author) ==>
                    && r.None?
                    && db.comments == ReplaceComment(old(db.comments), SoftDeleted(c))
                    && FindComment(db.comments, c.id) == Some(SoftDeleted(c)))
  {
    if !user.IsAuthenticated() {
      return Some(NotAuthenticated);
    }
    var obj := GetObject(db.comments, params, pk);
    if obj.Failure? {
      return Some(obj.error);
    }
    var comment := obj.value;
    if !user.Is(comment.author) {
      return Some(Forbidden(DeleteOwnText));
    }
    var deleted := SoftDeleted(comment);
    db.Save(deleted);
    return None;
  }
}
