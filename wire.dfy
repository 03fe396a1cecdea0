/**
 * The closed set of messages the two consumers of comments/consumers.py
 * send over a WebSocket, and the JSON object each one is written as
 * (`json.dumps` of the dictionary the handler builds).  `Decode` is what a
 * client does with the text; the round trip shows that the `type` field
 * and the other fields determine the message.
 */
module Wire {
  import opened Wrappers
  import opened JsonValues

  /** The `comment` dictionary of a `comment_message` event (views.py builds it). */
  datatype CommentSummary = CommentSummary(
    id: int,
    author: string,
    content: string,
    createdAt: int,
    parentId: Option<int>)

  datatype WireMessage =
    | ConnectionEstablished(message: string)
    | NewComment(comment: CommentSummary)
    | VoteUpdate(commentId: int, netVotes: int)
    | Typing(username: Json, isTyping: Json)
    | Notification(message: string, aboutComment: Option<int>, onPage: Option<int>)
    | Error(message: string)

  /** The `type` field of each kind of message. */
  function Tag(m: WireMessage): string {
    match m
    case ConnectionEstablished(_) => "connection_established"
    case NewComment(_) => "new_comment"
    case VoteUpdate(_, _) => "vote_update"
    case Typing(_, _) => "typing"
    case Notification(_, _, _) => "notification"
    case Error(_) => "error"
  }

  function NullableInt(o: Option<int>): Json {
    match o
    case None => JNull
    case Some(i) => JInt(i)
  }

  function EncodeSummary(c: CommentSummary): Json {
    JObject(map["id" := JInt(c.id), "author" := JStr(c.author), "content" := JStr(c.content),
                "created_at" := JInt(c.createdAt), "parent_id" := NullableInt(c.parentId)])
  }

  function Encode(m: WireMessage): (j: Json)
    ensures j.JObject? && "type" in j.fields && j.fields["type"] == JStr(Tag(m))
  {
    var tag := JStr(Tag(m));
    match m
    case ConnectionEstablished(msg) => JObject(map["type" := tag, "message" := JStr(msg)])
    case NewComment(c) => JObject(map["type" := tag, "comment" := EncodeSummary(c)])
    case VoteUpdate(id, net) => JObject(map["type" := tag, "comment_id" := JInt(id), "net_votes" := JInt(net)])
    case Typing(u, b) => JObject(map["type" := tag, "username" := u, "is_typing" := b])
    case Notification(msg, cid, pid) =>
      JObject(map["type" := tag, "message" := JStr(msg), "comment_id" := NullableInt(cid), "page_id" := NullableInt(pid)])
    case Error(msg) => JObject(map["type" := tag, "message" := JStr(msg)])
  }

  // ---- reading a message back ----------------------------------------------

  function StrField(f: map<string, Json>, key: string): Option<string> {
    if key in f && f[key].JStr? then Some(f[key].s) else None
  }

  function IntField(f: map<string, Json>, key: string): Option<int> {
    if key in f && f[key].JInt? then Some(f[key].i) else None
  }

  function NullableIntField(f: map<string, Json>, key: string): Option<Option<int>> {
    if key !in f then None
    else match f[key]
      case JNull => Some(None)
      case JInt(i) => Some(Some(i))
      case _ => None
  }

  function DecodeSummary(j: Json): Option<CommentSummary> {
    if !j.JObject? then None
    else
      var f := j.fields;
      match (IntField(f, "id"), StrField(f, "author"), StrField(f, "content"),
             IntField(f, "created_at"), NullableIntField(f, "parent_id"))
      case (Some(id), Some(a), Some(c), Some(t), Some(p)) => Some(CommentSummary(id, a, c, t, p))
      case _ => None
  }

  function Decode(j: Json): Option<WireMessage> {
    if !j.JObject? then None
    else
      var f := j.fields;
      match StrField(f, "type")
      case None => None
      case Some(t) =>
        if t == "connection_established" then
          match StrField(f, "message") case Some(msg) => Some(ConnectionEstablished(msg)) case None => None
        else if t == "new_comment" then
          if "comment" !in f then None
          else match DecodeSummary(f["comment"]) case Some(c) => Some(NewComment(c)) case None => None
        else if t == "vote_update" then
          match (IntField(f, "comment_id"), IntField(f, "net_votes"))
          case (Some(id), Some(net)) => Some(VoteUpdate(id, net))
          case _ => None
        else if t == "typing" then
          if "username" in f && "is_typing" in f then Some(Typing(f["username"], f["is_typing"])) else None
        else if t == "notification" then
          match (StrField(f, "message"), NullableIntField(f, "comment_id"), NullableIntField(f, "page_id"))
          case (Some(msg), Some(cid), Some(pid)) => Some(Notification(msg, cid, pid))
          case _ => None
        else if t == "error" then
          match StrField(f, "message") case Some(msg) => Some(Error(msg)) case None => None
        else None
  }

  lemma NullableIntRoundTrip(f: map<string, Json>, key: string, o: Option<int>)
    requires key in f && f[key] == NullableInt(o)
    ensures NullableIntField(f, key) == Some(o)
  {
  }

  /** The `comment` dictionary reads back as the summary it was written from. */
  lemma DecodeEncodeSummary(c: CommentSummary)
    ensures DecodeSummary(EncodeSummary(c)) == Some(c)
  {
    var f := EncodeSummary(c).fields;
    NullableIntRoundTrip(f, "parent_id", c.parentId);
    assert IntField(f, "id") == Some(c.id) && IntField(f, "created_at") == Some(c.createdAt);
    assert StrField(f, "author") == Some(c.author) && StrField(f, "content") == Some(c.content);
  }

  /** A client reading the JSON object gets back exactly the message that was sent. */
  lemma DecodeEncode(m: WireMessage)
    ensures Decode(Encode(m)) == Some(m)
  {
    var f := Encode(m).fields;
    assert StrField(f, "type") == Some(Tag(m));
    match m
    case ConnectionEstablished(msg) =>
      assert StrField(f, "message") == Some(msg);
    case NewComment(c) =>
      DecodeEncodeSummary(c);
    case VoteUpdate(id, net) =>
      assert IntField(f, "comment_id") == Some(id) && IntField(f, "net_votes") == Some(net);
    case Typing(_, _) =>
    case Notification(msg, cid, pid) =>
      assert StrField(f, "message") == Some(msg);
      NullableIntRoundTrip(f, "comment_id", cid);
      NullableIntRoundTrip(f, "page_id", pid);
    case Error(msg) =>
      assert StrField(f, "message") == Some(msg);
  }

  /** Distinct messages are written as distinct JSON objects. */
  lemma EncodeInjective(a: WireMessage, b: WireMessage)
    ensures Encode(a) == Encode(b) ==> a == b
  {
    DecodeEncode(a);
    DecodeEncode(b);
  }
}
