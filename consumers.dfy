/**
 * The two WebSocket consumers of comments/consumers.py.  A consumer owns
 * one channel of the layer; `connect` and `disconnect` add it to and remove
 * it from a group, `receive` handles a frame from the browser, and the
 * handlers turn layer events into messages on the socket (`sent`, in the
 * order they were sent).  An event whose type names no handler of the
 * consumer makes the Channels dispatcher raise "No handler for message
 * type", which ends the consumer: `stopped` records that, and a stopped
 * consumer handles nothing further.
 */
module Consumers {
  import opened Wrappers
  import opened JsonValues
  import opened Models
  import opened Wire
  import opened Channels

  const ConnectedText: string := "Connected to comment room"
  const AuthRequiredText: string := "Authentication required for notifications"

  /**
   * The event `receive` broadcasts for a frame: only a JSON object whose
   * `type` is "typing" gives one, with `username` defaulting to "Someone"
   * and `is_typing` to false when the frame leaves them out.  `None` stands
   * for a frame `json.loads` rejects.
   */
  function TypingSignal(data: Option<Json>): (r: Option<Event>)
    ensures r.Some? <==> data.Some? && data.value.JObject? && "type" in data.value.fields &&
                         data.value.fields["type"] == JStr("typing")
    ensures r.Some? ==> r.value.TypingEvent?
    ensures r.Some? ==> var f := data.value.fields;
                        && r.value.username == (if "username" in f then f["username"] else JStr("Someone"))
                        && r.value.isTyping == (if "is_typing" in f then f["is_typing"] else JBool(false))
  {
    match data
    case Some(JObject(f)) =>
      if Get(f, "type", JNull) == JStr("typing") then
        Some(TypingEvent(Get(f, "username", JStr("Someone")), Get(f, "is_typing", JBool(false))))
      else None
    case _ => None
  }

  /** What a CommentConsumer sends for an event; it has no handler for notifications. */
  function CommentConsumerOutput(ev: Event): (m: Option<WireMessage>)
    ensures m.Some? <==> !ev.NotificationEvent?
    ensures ev.CommentEvent? ==> m == Some(NewComment(ev.comment))
    ensures ev.VoteUpdateEvent? ==> m == Some(VoteUpdate(ev.commentId, ev.netVotes))
    ensures ev.TypingEvent? ==> m == Some(Typing(ev.username, ev.isTyping))
  {
    match ev
    case CommentEvent(c) => Some(NewComment(c))
    case VoteUpdateEvent(id, net) => Some(VoteUpdate(id, net))
    case TypingEvent(u, b) => Some(Typing(u, b))
    case NotificationEvent(_, _, _) => None
  }

  /** What a NotificationConsumer sends for an event; it handles notifications only. */
  function NotificationConsumerOutput(ev: Event): (m: Option<WireMessage>)
    ensures m.Some? <==> ev.NotificationEvent?
    ensures ev.NotificationEvent? ==> m == Some(Notification(ev.text, ev.aboutComment, ev.onPage))
  {
    match ev
    case NotificationEvent(t, c, p) => Some(Notification(t, c, p))
    case _ => None
  }

  function AsSeq(m: Option<WireMessage>): seq<WireMessage> {
    match m
    case None => []
    case Some(x) => [x]
  }

  /** `self.user and not self.user.is_anonymous`. */
  predicate IsSignedIn(scopeUser: Option<User>) {
    scopeUser.Some? && scopeUser.value.IsAuthenticated()
  }

  class CommentConsumer {
    const channelName: ChannelName
    const layer: ChannelLayer
    var pageId: int
    var roomGroupName: Option<GroupName>
    var accepted: bool
    var stopped: bool
    var sent: seq<WireMessage>

    constructor (channelName: ChannelName, layer: ChannelLayer)
      ensures this.channelName == channelName && this.layer == layer
      ensures roomGroupName.None? && !accepted && !stopped && sent == []
    {
      this.channelName := channelName;
      this.layer := layer;
      pageId := 0;
      roomGroupName := None;
      accepted := false;
      stopped := false;
      sent := [];
    }

    /** Joins the page's room, accepts, then sends one confirmation. */
    method Connect(pageId: int)
      modifies this, layer
      ensures this.pageId == pageId && roomGroupName == Some(RoomGroup(pageId)) && accepted
      ensures stopped == old(stopped)
      ensures layer.groups == Join(old(layer.groups), RoomGroup(pageId), channelName)
      ensures layer.queues == old(layer.queues)
      ensures sent == old(sent) + [ConnectionEstablished(ConnectedText)]
    {
      this.pageId := pageId;
      roomGroupName := Some(RoomGroup(pageId));
      layer.GroupAdd(RoomGroup(pageId), channelName);
      accepted := true;
      sent := sent + [ConnectionEstablished(ConnectedText)];
    }

    /** Leaves the room; the other members stay. */
    method Disconnect()
      requires roomGroupName.Some?
      modifies layer
      ensures layer.groups == Discard(old(layer.groups), roomGroupName.value, channelName)
      ensures layer.queues == old(layer.queues)
    {
      layer.GroupDiscard(roomGroupName.value, channelName);
    }

    /**
     * A typing frame is sent to the whole room, this consumer's own channel
     * included; any other frame, and a frame that is not JSON, sends nothing
     * and leaves the connection open.
     */
    method Receive(data: Option<Json>)
      requires roomGroupName.Some?
      modifies layer
      ensures layer.groups == old(layer.groups)
      ensures layer.queues == match TypingSignal(data)
                              case None => old(layer.queues)
                              case Some(ev) => Deliver(old(layer.queues), old(layer.Members(roomGroupName.value)), ev)
    {
      var signal := TypingSignal(data);
      if signal.Some? {
        layer.GroupSend(roomGroupName.value, signal.value);
      }
    }

    /** `comment_message`: the event's comment goes out unchanged as a new_comment message. */
    method CommentMessage(comment: CommentSummary)
      modifies this`sent
      ensures sent == old(sent) + [NewComment(comment)]
    {
      sent := sent + [NewComment(comment)];
    }

    /** `vote_update`: comment id and net votes go out unchanged. */
    method VoteUpdate(commentId: int, netVotes: int)
      modifies this`sent
      ensures sent == old(sent) + [WireMessage.VoteUpdate(commentId, netVotes)]
    {
      sent := sent + [WireMessage.VoteUpdate(commentId, netVotes)];
    }

    /** `user_typing`: username and flag go out unchanged as a typing message. */
    method UserTyping(username: Json, isTyping: Json)
      modifies this`sent
      ensures sent == old(sent) + [Typing(username, isTyping)]
    {
      sent := sent + [Typing(username, isTyping)];
    }

    /**
     * Takes the next event off this consumer's channel and runs the handler
     * its type names; a notification has none here, so it stops the
     * consumer.
     */
    method HandleNext() returns (handled: bool)
      modifies this`sent, this`stopped, layer
      ensures layer.groups == old(layer.groups)
      ensures old(stopped) || old(layer.Queue(channelName)) == [] ==>
                !handled && sent == old(sent) && stopped == old(stopped) && layer.queues == old(layer.queues)
      ensures !old(stopped) && old(layer.Queue(channelName)) != [] ==>
                var ev := old(layer.Queue(channelName))[0];
                && layer.queues == old(layer.queues)[channelName := old(layer.Queue(channelName))[1..]]
                && handled == CommentConsumerOutput(ev).Some?
                && stopped == !handled
                && sent == old(sent) + AsSeq(CommentConsumerOutput(ev))
    {
      handled := false;
      if stopped {
        return;
      }
      var ev := layer.Receive(channelName);
      if ev.Some? {
        match ev.value
        case CommentEvent(c) => CommentMessage(c); handled := true;
        case VoteUpdateEvent(id, net) => VoteUpdate(id, net); handled := true;
        case TypingEvent(u, b) => UserTyping(u, b); handled := true;
        case NotificationEvent(_, _, _) => stopped := true;
      }
    }
  }

  class NotificationConsumer {
    const channelName: ChannelName
    const layer: ChannelLayer
    var user: Option<User>
    var roomGroupName: Option<GroupName>
    var accepted: bool
    var closed: bool
    var stopped: bool
    var sent: seq<WireMessage>

    constructor (channelName: ChannelName, layer: ChannelLayer)
      ensures this.channelName == channelName && this.layer == layer
      ensures user.None? && roomGroupName.None? && !accepted && !closed && !stopped && sent == []
    {
      stopped := false;
      this.channelName := channelName;
      this.layer := layer;
      user := None;
      roomGroupName := None;
      accepted := false;
      closed := false;
      sent := [];
    }

    /**
     * A signed-in user joins `notifications_{id}`; anyone else is accepted,
     * sent one error message and closed, and joins no group.
     */
    method Connect(scopeUser: Option<User>)
      requires roomGroupName.None?
      modifies this, layer
      ensures user == scopeUser && accepted && stopped == old(stopped)
      ensures layer.queues == old(layer.queues)
      ensures IsSignedIn(scopeUser) ==>
                && roomGroupName == Some(NotificationGroup(scopeUser.value.id))
                && layer.groups == Join(old(layer.groups), NotificationGroup(scopeUser.value.id), channelName)
                && sent == old(sent) && closed == old(closed)
      ensures !IsSignedIn(scopeUser) ==>
                && roomGroupName.None?
                && layer.groups == old(layer.groups)
                && sent == old(sent) + [Error(AuthRequiredText)] && closed
    {
      user := scopeUser;
      if IsSignedIn(scopeUser) {
        roomGroupName := Some(NotificationGroup(scopeUser.value.id));
        layer.GroupAdd(NotificationGroup(scopeUser.value.id), channelName);
        accepted := true;
      } else {
        accepted := true;
        sent := sent + [Error(AuthRequiredText)];
        closed := true;
      }
    }

    /** Leaves the notification group only if one was joined, so it is safe after an anonymous connect. */
    method Disconnect()
      modifies layer
      ensures layer.groups == if roomGroupName.Some? then Discard(old(layer.groups), roomGroupName.value, channelName)
                              else old(layer.groups)
      ensures layer.queues == old(layer.queues)
    {
      if roomGroupName.Some? {
        layer.GroupDiscard(roomGroupName.value, channelName);
      }
    }

    /** `notification_message`: the text, and the comment and page ids or null. */
    method NotificationMessage(text: string, aboutComment: Option<int>, onPage: Option<int>)
      modifies this`sent
      ensures sent == old(sent) + [Notification(text, aboutComment, onPage)]
    {
      sent := sent + [Notification(text, aboutComment, onPage)];
    }

    /**
     * Takes the next event off this consumer's channel and runs the handler
     * its type names; any event but a notification has none here, so it
     * stops the consumer.
     */
    method HandleNext() returns (handled: bool)
      modifies this`sent, this`stopped, layer
      ensures layer.groups == old(layer.groups)
      ensures old(stopped) || old(layer.Queue(channelName)) == [] ==>
                !handled && sent == old(sent) && stopped == old(stopped) && layer.queues == old(layer.queues)
      ensures !old(stopped) && old(layer.Queue(channelName)) != [] ==>
                var ev := old(layer.Queue(channelName))[0];
                && layer.queues == old(layer.queues)[channelName := old(layer.Queue(channelName))[1..]]
                && handled == NotificationConsumerOutput(ev).Some?
                && stopped == !handled
                && sent == old(sent) + AsSeq(NotificationConsumerOutput(ev))
    {
      handled := false;
      if stopped {
        return;
      }
      var ev := layer.Receive(channelName);
      if ev.Some? {
        if ev.value.NotificationEvent? {
          NotificationMessage(ev.value.text, ev.value.aboutComment, ev.value.onPage);
          handled := true;
        } else {
          stopped := true;
        }
      }
    }
  }

  /**
   * Two viewers of page 5; the first sends a typing frame.  Both of them,
   * the sender included, then receive a typing message carrying the
   * frame's username and flag.
   */
  method TypingReachesWholeRoom() returns (first: seq<WireMessage>, second: seq<WireMessage>)
    ensures first == [ConnectionEstablished(ConnectedText), Typing(JStr("bob"), JBool(true))]
    ensures second == first
  {
    var layer := new ChannelLayer();
    var x := new CommentConsumer("x", layer);
    var y := new CommentConsumer("y", layer);
    x.Connect(5);
    y.Connect(5);
    assert layer.Members(RoomGroup(5)) == {"x", "y"};
    assert layer.Queue("x") == [] && layer.Queue("y") == [];
    var data := JObject(map["type" := JStr("typing"), "username" := JStr("bob"), "is_typing" := JBool(true)]);
    assert TypingSignal(Some(data)) == Some(TypingEvent(JStr("bob"), JBool(true)));
    x.Receive(Some(data));
    assert layer.Queue("x") == [TypingEvent(JStr("bob"), JBool(true))];
    assert layer.Queue("y") == [TypingEvent(JStr("bob"), JBool(true))];
    var hx := x.HandleNext();
    var hy := y.HandleNext();
    first, second := x.sent, y.sent;
  }

  /** An anonymous notification connection gets one error, is closed, and leaves no group with any member. */
  method AnonymousNotificationRefused() returns (sent: seq<WireMessage>, closed: bool, groups: map<GroupName, set<ChannelName>>)
    ensures sent == [Error(AuthRequiredText)] && closed
    ensures groups == map[]
  {
    var layer := new ChannelLayer();
    var n := new NotificationConsumer("n", layer);
    n.Connect(Some(Anonymous));
    n.Disconnect();
    sent, closed := n.sent, n.closed;
    groups := layer.groups;
  }
}
