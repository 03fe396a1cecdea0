# Discussion Hub comments core, modelled in Dafny

This project models the `comments` application of Discussion Hub. That application is a Django site where signed-in users post comments and replies on discussion pages. The model covers:

- voting a comment up or down;
- editing and soft-deleting your own comments;
- following each page live over WebSockets.

The model covers these parts of the application:

- **Entities** (`models.dfy`):
  - pages, comments and votes;
  - the edit and delete permissions;
  - the vote counts and the score;
  - a user's own vote;
  - the replies of a comment.
- **The vote toggle** (`ledger.dfy`). The HTML vote view works this way:
  - a first vote is added;
  - the same vote again removes it;
  - the other vote changes it.

  The lemmas state the effect on the rows, on every count, on the one-vote-per-user constraint, and on every other user's vote. The API vote action is meant to work the same way, but as written it never removes a vote (see "## Findings"). `ApiViews.VoteAsWritten` models it as written, and `ApiViews.ApiVote` follows that.
- **Store, cache, listings and query sets** (`store.dfy`, `listings.dfy`, `queries.dfy`):
  - the comment and vote tables, held by the `Store.Database` class, with auto-increment ids;
  - the page cache (`Store.Cache`);
  - the two listings: a page's top-level comments, newest first, and a comment's replies, oldest first;
  - `filter` and `order_by`.
- **The HTML views** (`views.dfy`). Each is a method on the store, the cache and the channel layer:
  - `page_detail`, with its comment form, the cache invalidation and the two `group_send` calls;
  - `vote_comment`, `edit_comment` and `delete_comment`;
  - `annotate_comments`, as a loop.
- **The REST API** (`api_views.py`, modelled in `api_views.dfy`):
  - `get_queryset` with its `page` and `parent` parameters, and `get_object`;
  - the `replies` and `comments` actions;
  - `vote`, `update` (a partial update) and `destroy`.
- **The serializers, the form and the admin** (`serializers.dfy`, `forms.dfy`, `admin.dfy`):
  - the computed counts and the user's vote;
  - `validate_parent`;
  - `clean_parent_id` and the form errors;
  - the 50-character comment preview.
- **The channel layer and the consumers** (`channels.dfy`, `consumers.dfy`, `wire.dfy`):
  - groups, plus per-channel queues of events;
  - the two consumers as classes, with `connect`, `disconnect`, `receive` and the handlers;
  - the JSON messages written to the socket, with their decoding.

Times are seconds. The edit window is given in minutes, as by the setting `COMMENT_EDIT_TIMEOUT_MINUTES`. The present time, the setting and the requesting user are parameters of the operations that read them.

Five behaviours of the code that the model keeps as written:

- **Typing events.** The comment consumer sends them to the whole room, the sender included (comments/consumers.py:41-49).
- **The API vote toggle.** A repeated vote is written over the stored vote and is not removed, although the comment at comments/api_views.py:148 says a repeated vote removes it. The corrected toggle is proved alongside it (see "## Findings").
- **Voting on deleted comments.** The HTML vote view accepts a deleted comment, because it looks the comment up by id alone (comments/views.py:215-217).
- **Reply parents.**
  - `clean_parent_id` accepts any stored comment as the parent, a deleted one or one on another page included (comments/forms.py:42-51).
  - The API's `validate_parent` rejects only deleted parents (comments/serializers.py:46-49).
- **The API.**
  - `update` has no edit window (comments/api_views.py:88-95).
  - Neither `update` nor `destroy` drops the page's cache entry (comments/api_views.py:88-106).
  - No code path sends a `vote_update` event. The consumer's handler for it is modelled all the same (comments/consumers.py:61).
  - The comment consumer joins the room of whatever page id the URL carries, without checking it (comments/consumers.py:10-11).

## Model

| member | source | states |
|---|---|---|
| Models.IsParent | comments/models.py:37-38 | a comment is top-level exactly when no list of comments makes it the reply of any comment |
| Models.CanBeEditedBy | comments/models.py:72-77 | a user may edit exactly when they may delete and the edit deadline has not passed; only the author ever may |
| Models.CanBeDeletedBy | comments/models.py:79-80 | an anonymous user may delete nothing, and nobody may delete a deleted comment; otherwise exactly the author may |
| Models.UpvoteCount | comments/models.py:58-60 | the up count is at most the number of rows, and zero exactly when no row is an up vote on the comment |
| Models.DownvoteCount | comments/models.py:62-64 | the down count is at most the number of rows, and zero exactly when no row is a down vote on the comment |
| Models.Score | comments/models.py:66-68 | the score is bounded by the number of rows; it is positive only when an up vote exists and negative only when a down vote exists |
| Models.GetUserVote | comments/models.py:52-54 | none exactly when the user has no vote on the comment; otherwise the type of one of the user's rows on it |
| Models.SoftDeleted | comments/views.py:285-286 | soft deletion sets the deleted flag and changes no other field |
| Models.EditImpliesDelete | comments/models.py:72-80 | whoever may edit a comment may also delete it |
| Models.SoftDeleteLocksOut | comments/models.py:72-80 | after a soft delete nobody may edit or delete the comment, at any time |
| Models.EditWindowInclusive | comments/models.py:76 | the edit window includes its last instant `created_at + timeout` and ends there |
| Models.EditPermissionShrinks | comments/models.py:72-77 | only the author may edit; a permission held at a time is held at every earlier time |
| Models.CountVotes | comments/models.py:58-64 | a vote count is at most the number of rows, and zero exactly when no row has that comment and type |
| Models.FindVote | comments/models.py:52-54 | the index of the first vote of the user on the comment; none exactly when there is no such row |
| Models.UserVoteIsTheVote | comments/models.py:96-97 | with one vote per (user, comment), the user's vote is the type of that row, wherever it is |
| Models.FindComment | comments/forms.py:47 | the lookup by id returns a stored comment with that id; none exactly when no stored comment has it |
| Models.GetReplies | comments/models.py:40-41 | the replies are the comments whose parent is this one, deleted ones included, each as often as stored, oldest first |
| Text.ParseIntToString | comments/forms.py:39-47 | the id written into the hidden field with `str` reads back with `int` as the same number |
| Queries.FilterCount | comments/serializers.py:38 | `.count()` of a filtered query set equals the length of the filtered listing |
| Queries.Filter | comments/views.py:75-78 | a filter keeps every row that satisfies the condition, as often as it occurs, and no other row |
| Queries.OrderBy | comments/views.py:79 | ordering returns the same rows, each as often as before, sorted by the key in the requested direction |
| Ledger.CountAppend | comments/views.py:237 | creating a vote raises the count of its comment and type by one and no other count |
| Ledger.CountRemove | comments/views.py:229 | deleting a vote lowers the count of its comment and type by one and no other count |
| Ledger.CountReplace | comments/views.py:232-233 | changing a vote moves one unit from the old row's count to the new row's count |
| Ledger.CastVote | comments/views.py:225-238 | the toggle adds exactly when there is no vote, removes exactly when the vote has the same type, and changes exactly when it has another type; adding gives one row more, removing one fewer, changing the same number |
| Ledger.CastVoteKeepsUnique | comments/models.py:96-97 | the toggle keeps at most one vote per (user, comment) |
| Ledger.CastVoteUserVote | comments/views.py:248 | afterwards the user's vote is the requested type, or none when the vote was removed |
| Ledger.CastVoteOthersUnchanged | comments/views.py:225-238 | the toggle changes no other user's vote and no vote on another comment |
| Ledger.CastVoteCounts | comments/views.py:245-247 | every count after the toggle in terms of the count before: only the voted comment's counts move, by the vote added, removed or moved |
| Ledger.ChangeMovesScoreByTwo | comments/views.py:232-234 | switching between up and down changes the score by two |
| Ledger.DoubleVoteRestoresRows | comments/views.py:228-230 | voting the same type twice from no vote leaves the vote table exactly as it was |
| Ledger.DoubleVoteRestoresCounts | comments/views.py:226-238 | repeating the vote the user already has removes and re-adds it, and every count is as before |
| Listings.PageTopLevel | comments/views.py:75-79 | the listing holds the page's non-deleted top-level comments, each as often as stored, newest first |
| Listings.LiveReplies | comments/api_views.py:112-120 | the replies listing holds the non-deleted direct replies, each as often as stored, oldest first |
| Store.CacheKeyInjective | comments/views.py:67 | distinct pages have distinct cache keys `page_{id}` |
| Store.ReplaceComment | comments/views.py:286 | `save()` gives the row with the comment's id the new values and changes no other row |
| Store.FindById | comments/views.py:217 | with auto-increment ids, the lookup by id finds row `id - 1` and nothing outside `1..n` |
| Store.FindAfterReplace | comments/views.py:266-267 | after a save the ids stay sequential; the saved id finds the new values and every other id the old row |
| Store.Database.Save | comments/views.py:286 | a save replaces the stored row in place, keeps every invariant, and leaves the pages and votes unchanged |
| Store.Cache.Set | comments/views.py:72 | setting adds the key and no other |
| Store.Cache.Delete | comments/views.py:105 | deleting removes the key and no other |
| Channels.GroupNamesDistinct | comments/views.py:113-129 | distinct pages have distinct rooms, distinct users distinct notification groups, and no room is a notification group |
| Channels.Join | comments/consumers.py:14-17 | `group_add` adds the channel to that group, and no other group changes |
| Channels.Discard | comments/consumers.py:30-33 | `group_discard` removes the channel from that group, and no other group changes |
| Channels.Deliver | comments/consumers.py:43-50 | `group_send` appends the event to every member's queue and to no other queue |
| Channels.JoinThenDiscard | comments/consumers.py:9-33 | disconnecting after connecting restores every group's membership |
| Channels.JoinDiscardIdempotent | comments/consumers.py:14-33 | joining twice equals joining once, and leaving twice equals leaving once |
| Channels.SendAllQueue | comments/views.py:111-136 | after a series of sends, every channel has received, in order, exactly the events of the groups it belongs to |
| Channels.ChannelLayer.GroupAdd | comments/consumers.py:14-17 | the layer's groups become the joined groups, and the queues stay as they were |
| Channels.ChannelLayer.GroupDiscard | comments/consumers.py:30-33 | the layer's groups become the groups with the channel left out, and the queues stay as they were |
| Channels.ChannelLayer.GroupSend | comments/consumers.py:43-50 | the queues become the delivery to the group's members at the moment of sending |
| Channels.ChannelLayer.Receive | comments/consumers.py:54-59 | the oldest pending event is taken off the channel's queue, or nothing when the queue is empty |
| Wire.Encode | comments/consumers.py:23-26 | every message is a JSON object whose `type` field names its kind |
| Wire.DecodeEncode | comments/consumers.py:54-75 | a client that reads a sent message back gets exactly the message that was sent |
| Wire.DecodeEncodeSummary | comments/views.py:116-122 | the `comment` dictionary reads back as the comment summary it was written from |
| Wire.EncodeInjective | comments/consumers.py:107-114 | distinct messages are written as distinct JSON objects |
| Consumers.TypingSignal | comments/consumers.py:35-52 | a frame broadcasts an event exactly when it is a JSON object whose type is "typing"; the username defaults to "Someone" and the flag to false |
| Consumers.CommentConsumerOutput | comments/consumers.py:54-75 | the comment consumer answers every event kind but notifications, each with its fields unchanged |
| Consumers.NotificationConsumerOutput | comments/consumers.py:107-114 | the notification consumer answers notifications only, with the text and the ids or null |
| Consumers.CommentConsumer.Connect | comments/consumers.py:9-26 | connecting joins `comments_page_{id}`, accepts, and sends exactly one confirmation, with no event queued |
| Consumers.CommentConsumer.Disconnect | comments/consumers.py:28-33 | disconnecting leaves the room, and the other members stay |
| Consumers.CommentConsumer.Receive | comments/consumers.py:35-52 | a typing frame goes to every member of the room, the sender included; any other frame leaves every queue unchanged |
| Consumers.CommentConsumer.CommentMessage | comments/consumers.py:54-59 | the event's comment goes out unchanged as one new_comment message |
| Consumers.CommentConsumer.VoteUpdate | comments/consumers.py:61-67 | the comment id and the net votes go out unchanged as one vote_update message |
| Consumers.CommentConsumer.UserTyping | comments/consumers.py:69-75 | the username and flag go out unchanged as one typing message |
| Consumers.CommentConsumer.HandleNext | comments/consumers.py:54-75 | the oldest queued event is taken and answered by the handler its type names; a notification has no handler, so it stops the consumer, and a stopped consumer handles nothing |
| Consumers.NotificationConsumer.Connect | comments/consumers.py:79-98 | a signed-in user joins `notifications_{id}`; anyone else joins no group, gets one error message and is closed |
| Consumers.NotificationConsumer.Disconnect | comments/consumers.py:100-105 | disconnecting leaves the group only if one was joined |
| Consumers.NotificationConsumer.NotificationMessage | comments/consumers.py:107-114 | the text and the comment and page ids go out as one notification message |
| Consumers.NotificationConsumer.HandleNext | comments/consumers.py:107-114 | the oldest queued event is taken off the queue; a notification is answered, any other event stops the consumer, and a stopped consumer handles nothing |
| Consumers.TypingReachesWholeRoom | comments/consumers.py:41-50 | when one of two viewers of a page types, both of them, the sender included, receive the typing message |
| Consumers.AnonymousNotificationRefused | comments/consumers.py:91-98 | an anonymous notification socket gets one error, is closed, and leaves the layer without any group |
| Forms.CleanParentId | comments/forms.py:22-51 | the value is stripped; no value, or one that is empty or all whitespace, means a top-level comment; a non-empty value holding U+0000 fails with "Null characters are not allowed."; otherwise an id that does not parse or is unknown fails with "Parent comment not found.", and a success is the stored comment with that id |
| Forms.CleanParentIdOfStored | comments/forms.py:38-51 | the id the reply form writes for any stored comment, deleted or not, cleans back to that comment |
| Forms.CleanContent | comments/forms.py:21-26 | the kept content is the stripped text: no longer than it, and empty exactly when the text is all whitespace |
| Text.Strip | comments/forms.py:22 | stripping keeps a middle part of the text with only whitespace cut away at each end; the result has no whitespace at either end, and is empty exactly when the text is all whitespace |
| Text.StripFixedPoint | comments/forms.py:38-47 | text with no whitespace at either end, such as a rendered id, is kept whole |
| Forms.FormErrors | comments/forms.py:21-51 | the form is valid exactly when the stripped content is non-empty, the content holds no U+0000 and the parent id cleans; "This field is required." appears exactly when the content is all whitespace; "Null characters are not allowed." exactly when non-blank content holds U+0000 or the parent id is refused for it; no other message appears |
| Serializers.ValidateParent | comments/serializers.py:46-49 | a parent is refused exactly when it is deleted; anything else passes unchanged |
| Serializers.RepliesCount | comments/serializers.py:37-38 | `replies_count` is the length of the replies listing |
| Serializers.CommentsCount | comments/serializers.py:59-60 | `comments_count` is the length of the page's comment listing |
| Serializers.UserVote | comments/serializers.py:27-35 | the user's vote is none for an anonymous user or a user without a vote; otherwise it is the type of a stored vote of that user on the comment |
| Admin.CommentPreview | comments/admin.py:30-32 | the preview is at most 53 characters long and starts with the content's first 50 characters, or with the whole content when it is shorter |
| Admin.PreviewFixedPoints | comments/admin.py:32 | the preview is the content itself exactly when the content has at most 50 characters, or has 53 and ends in "..." |
| Admin.PreviewIdempotent | comments/admin.py:30-32 | previewing a preview changes nothing |
| Views.AnnotateComments | comments/views.py:34-61 | each comment in its order with the user's own vote (none when anonymous) and the user's edit and delete permissions |
| Views.VoteComment | comments/views.py:213-253 | login first, then 404, then an invalid type changes nothing; otherwise the votes become the toggle's result, and the response carries the counts, the score and the user's vote afterwards |
| Views.Announcements | comments/views.py:111-136 | the room message comes first, then a notification exactly when the comment replies to another user's comment |
| Views.AnnouncementDelivery | comments/views.py:111-136 | a channel receives the new comment exactly when it is in the page's room, and the reply notification exactly when it is in the parent author's group |
| Views.Attempted | comments/views.py:108-139 | the sends before a failing one happen and none from it on; a failure past the end, or none, sends everything |
| Views.Broadcast | comments/views.py:112-124 | a send happens only after the comment is stored and the page's cache entry is gone |
| Views.Announce | comments/views.py:107-139 | the queues become the sends of the announcements up to the one that fails, and the groups do not change |
| Views.CreateComment | comments/views.py:92-136 | the new comment is appended with the next id, the stripped content, the cleaned parent, the user and the time; the page's cache key is dropped; then the comment is announced |
| Views.FetchPage | comments/views.py:66-72 | the page is found exactly when it is cached or stored; a stored page that was not cached is put in the cache |
| Views.PageDetail | comments/views.py:64-155 | 404 exactly when the page is neither cached nor stored; a valid POST by a signed-in user creates and announces a comment; otherwise the page renders its annotated listing, with the form errors when the POST is invalid |
| Views.EditComment | comments/views.py:255-274 | login first, then 404, then refusal unless the user may edit; a valid POST replaces the content only, with the stripped text, and drops the page's cache key, and every other outcome changes nothing |
| Views.DeleteComment | comments/views.py:277-290 | a user who may delete the comment sets its deleted flag, keeps the row and drops the page's cache key; anyone else changes nothing |
| ApiViews.GetQueryset | comments/api_views.py:58-78 | the query set holds the non-deleted comments selected by `page` and `parent`, each as often as stored; a filter value that is no integer is a server error |
| ApiViews.GetObject | comments/api_views.py:131 | the object is a selected comment whose id is `pk`; it is found exactly when `pk` parses and some selected comment has it, and is a 404 exactly when not |
| ApiViews.Replies | comments/api_views.py:108-123 | the replies action succeeds exactly when `get_object` does, returns the selected comment's non-deleted replies, oldest first, and otherwise fails as `get_object` does |
| ApiViews.PageComments | comments/api_views.py:23-39 | found exactly when `pk` names a stored page; the result is its non-deleted top-level comments, newest first |
| ApiViews.Serialize | comments/api_views.py:59-63 | `net_votes` is the upvotes minus the downvotes of the stored "1" and "-1" votes; it also gives the user's vote and the count of live replies |
| ApiViews.ApiVoteValue | comments/api_views.py:132-138 | only the numbers 1 and -1 are accepted as `vote_type` |
| ApiViews.VoteAsWritten | comments/api_views.py:140-157 | as written, a vote is added exactly when the user has none, is never removed, and otherwise overwrites the user's vote; it agrees with the intended toggle wherever that does not remove, and a repeated vote leaves the rows as they were |
| ApiViews.VoteAsWrittenKeepsUnique | comments/api_views.py:140-155 | as written, the vote action keeps at most one vote per (user, comment) |
| ApiViews.AsWrittenRepeatKeepsVote | comments/api_views.py:146-155 | as written, voting 1 twice from no vote answers "vote changed" the second time and keeps the vote |
| ApiViews.RepeatedApiVoteRemoves | comments/api_views.py:140-150 | with the stored text compared to the text of the number, the second identical vote removes the one the first added |
| ApiViews.NetVotes | comments/api_views.py:62-63 | `net_votes` is bounded by the number of rows; it is positive only when a "1" vote exists and negative only when a "-1" vote exists |
| ApiViews.ApiVoteNetEffect | comments/api_views.py:140-157 | as written, a vote moves the comment's `net_votes` by its value less the weight of the vote it overwrites, so a repeated vote moves nothing; other comments do not move |
| ApiViews.CorrectedApiVoteNetEffect | comments/api_views.py:140-157 | for the corrected toggle, on any rows, a vote of 1 or -1 moves the comment's `net_votes` by its value when added, by minus its value when it removes the same vote, and by its value less the weight of the replaced type when it changes one; no other comment moves |
| ApiViews.CorrectedApiVoteReverses | comments/api_views.py:151-155 | for the corrected toggle, a vote over the opposite API vote is a change that moves `net_votes` by twice its value |
| ApiViews.ApiVote | comments/api_views.py:125-157 | anonymous users are refused, then errors follow `get_object`, then a type that is not 1 or -1 is a 400 changing nothing; otherwise the votes and the answer are those of the action as written: the vote `str(vote_type)` is added or written over the user's vote |
| ApiViews.PatchErrors | comments/serializers.py:20-25 | a patch is valid exactly when its page exists, its parent (when given) exists, and its content (when given) is neither empty nor all whitespace and holds no U+0000; the content is refused exactly when one of those fails |
| ApiViews.Patched | comments/api_views.py:95 | the patch replaces the fields it carries, the content trimmed, and the id, author, time and deleted flag are kept |
| ApiViews.Update | comments/api_views.py:88-95 | anonymous users are refused, then errors follow `get_object`, then non-authors get a 403, invalid patches a 400, and a valid patch is saved in place |
| ApiViews.Destroy | comments/api_views.py:97-106 | anonymous users are refused, then errors follow `get_object`, then non-authors get a 403; the author's delete sets the deleted flag and keeps the row |

## Left out

- Rendering, flash messages, redirects and pagination (`Paginator`, 10 per page) are left out. A response is reduced to its kind and its data. The AJAX answer of `vote_comment` is `Views.VoteResponse.Voted`, with the action, the counts, the score and the user's vote. The redirect given otherwise is the same outcome without the JSON.
- `require_POST` of `vote_comment` is not modelled: the vote type is the only POST datum modelled. Neither is the `x-requested-with` header.
- `homepage`, `signup`, `add_comment` and `create_discussion` of comments/views.py are left out, as is the user sign-up form of comments/forms.py. They are outside the comment core.
- The following are left out. They hold no logic beyond the framework:
  - `PageViewSet` list and retrieve;
  - the API `create` (`perform_create`), apart from `validate_parent`;
  - `VoteSerializer`.
- The REST `ordering` parameter is left out. The default order of the API list is left out too.
- PUT, which requires every field, is left out: `ApiViews.Update` models the partial update (PATCH).
- ApiViews.PatchErrors: does not model the rejection of a negative or non-integer page or parent id. The patch carries ids already typed as natural numbers.
- Text.ParseInt: accepts an optional sign followed by ASCII digits. It does not model the surrounding whitespace, the underscores and the non-ASCII digits that Python's `int` also accepts.
- The REST framework's conversion of the `page` and `parent` query parameters is reduced to `ParseInt`. A value that does not parse is a server error (`ValueError`).
- JSON floating-point numbers are not modelled. A frame `json.loads` rejects is the value `None`.
- ApiViews.ApiVoteValue: accepts only the JSON numbers 1 and -1. Python's `vote_type not in [1, -1]` also lets through `true` and `1.0`, because they compare equal to 1. Those would then be stored as the text "True" or "1.0". The model has no floats, and it treats `true` as invalid.
- The JSON text itself is left out: messages are JSON values. So is the ISO format of `created_at`, which is kept as a number of seconds.
- `updated_at` and `voted_at` are not modelled. Comment and vote rows carry only the fields the logic reads.
- Text.Strip: strips the ASCII whitespace, the separators 0x1c to 0x1f, next-line and no-break space. Python's `str.strip` also removes the other Unicode spaces, such as U+2028 and the ideographic space, which are not modelled.
- Consumers.CommentConsumer.Disconnect: requires a connected consumer. A disconnect before `connect` would fail in the source on the missing group name.
- Consumers.CommentConsumer.HandleNext: an event with no handler makes the dispatcher raise, and the model reduces that to the consumer stopping (`stopped`). The closing of the socket that follows is not modelled. No code path sends a notification to a room. The same holds for Consumers.NotificationConsumer.HandleNext.
- Store.SequentialIds: assumes that comment rows are never hard-deleted, so the row with id `k` is at index `k - 1`. The admin site and the cascades of `on_delete=CASCADE`, which delete rows, are not modelled. The views and the API only soft-delete.
- Channel-layer capacity, expiry and the concurrency of the asynchronous consumers are left out. Events are delivered in order, and the sends of one request run one after another.
- The `print` of a failed WebSocket send is left out. Which send fails is the parameter `failAt`.
- comments/routing.py is not part of this model. The consumer receives the page id of its URL as a parameter.

## Findings

| source | as written | input that shows it | evidently intended | confidence | as-written member | corrected member |
|---|---|---|---|---|---|---|
| comments/api_views.py:147 | `vote.vote_type == vote_type` compares two different things. The stored value is the CharField text "1" or "-1". The request value is the JSON number 1 or -1. The two are never equal, so a repeated vote answers "vote changed" and keeps the vote. | POST `{"vote_type": 1}` twice, by the same user, on a comment without a vote. The second answer is "vote changed", and there is still one vote of "1". | The same vote twice removes it and answers "vote removed", as the comment at line 148 says and as the HTML view does. | not executed | ApiViews.AsWrittenRepeatKeepsVote | ApiViews.RepeatedApiVoteRemoves |
