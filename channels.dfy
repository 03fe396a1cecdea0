/**
 * The channel layer the views and consumers share: a map from group name
 * to the set of channels in the group, and a queue of pending events per
 * channel.  `group_send` appends one event to the queue of every channel
 * that is a member of the group at the moment of sending; a consumer takes
 * events off its own channel's queue and hands each to the handler its
 * type names.
 */
module Channels {
  import opened Wrappers
  import opened JsonValues
  import opened Text
  import opened Wire

  type ChannelName = string
  type GroupName = string

  /** The layer's events; the comment after each is the handler its `type` names. */
  datatype Event =
    | CommentEvent(comment: CommentSummary)                       // comment_message
    | VoteUpdateEvent(commentId: int, netVotes: int)              // vote_update
    | TypingEvent(username: Json, isTyping: Json)                 // user_typing
    | NotificationEvent(text: string, aboutComment: Option<int>, onPage: Option<int>)  // notification_message

  /** `comments_page_{page_id}`: the room of a discussion page. */
  function RoomGroup(pageId: int): GroupName {
    "comments_page_" + IntToString(pageId)
  }

  /** `notifications_{user.id}`: the personal notification group of a user. */
  function NotificationGroup(userId: int): GroupName {
    "notifications_" + IntToString(userId)
  }

  /** Distinct pages have distinct rooms, distinct users distinct notification groups, and no room is a notification group. */
  lemma GroupNamesDistinct(p: int, q: int, u: int, v: int)
    ensures RoomGroup(p) == RoomGroup(q) ==> p == q
    ensures NotificationGroup(u) == NotificationGroup(v) ==> u == v
    ensures RoomGroup(p) != NotificationGroup(u)
  {
    PrefixedIntInjective("comments_page_", p, q);
    PrefixedIntInjective("notifications_", u, v);
    assert RoomGroup(p)[0] == 'c';
    assert NotificationGroup(u)[0] == 'n';
  }

  function MembersOf(groups: map<GroupName, set<ChannelName>>, g: GroupName): set<ChannelName> {
    if g in groups then groups[g] else {}
  }

  function QueueOf(queues: map<ChannelName, seq<Event>>, ch: ChannelName): seq<Event> {
    if ch in queues then queues[ch] else []
  }

  /** `group_add`: `ch` becomes a member of `g`; no other group changes. */
  function Join(groups: map<GroupName, set<ChannelName>>, g: GroupName, ch: ChannelName): (r: map<GroupName, set<ChannelName>>)
    ensures forall h :: MembersOf(r, h) == if h == g then MembersOf(groups, g) + {ch} else MembersOf(groups, h)
  {
    groups[g := MembersOf(groups, g) + {ch}]
  }

  /** `group_discard`: `ch` stops being a member of `g`, whether or not it was one; no other group changes. */
  function Discard(groups: map<GroupName, set<ChannelName>>, g: GroupName, ch: ChannelName): (r: map<GroupName, set<ChannelName>>)
    ensures forall h :: MembersOf(r, h) == if h == g then MembersOf(groups, g) - {ch} else MembersOf(groups, h)
  {
    if g in groups then groups[g := groups[g] - {ch}] else groups
  }

  /** `group_send`: the event is appended to the queue of every member, and only theirs. */
  function Deliver(queues: map<ChannelName, seq<Event>>, members: set<ChannelName>, ev: Event): (r: map<ChannelName, seq<Event>>)
    ensures forall ch :: QueueOf(r, ch) == if ch in members then QueueOf(queues, ch) + [ev] else QueueOf(queues, ch)
  {
    map ch | ch in queues.Keys + members :: if ch in members then QueueOf(queues, ch) + [ev] else queues[ch]
  }

  /** Leaving the group one has just joined restores every group's membership. */
  lemma JoinThenDiscard(groups: map<GroupName, set<ChannelName>>, g: GroupName, ch: ChannelName, h: GroupName)
    requires ch !in MembersOf(groups, g)
    ensures MembersOf(Discard(Join(groups, g, ch), g, ch), h) == MembersOf(groups, h)
  {
  }

  /** Joining and leaving are idempotent. */
  lemma JoinDiscardIdempotent(groups: map<GroupName, set<ChannelName>>, g: GroupName, ch: ChannelName, h: GroupName)
    ensures MembersOf(Join(Join(groups, g, ch), g, ch), h) == MembersOf(Join(groups, g, ch), h)
    ensures MembersOf(Discard(Discard(groups, g, ch), g, ch), h) == MembersOf(Discard(groups, g, ch), h)
  {
  }

  /** Group sends one after another; membership does not change in between. */
  function SendAll(queues: map<ChannelName, seq<Event>>, groups: map<GroupName, set<ChannelName>>,
                   plan: seq<(GroupName, Event)>): map<ChannelName, seq<Event>>
    decreases |plan|
  {
    if plan == [] then queues
    else SendAll(Deliver(queues, MembersOf(groups, plan[0].0), plan[0].1), groups, plan[1..])
  }

  /** The events of `plan` whose group has `ch` as a member, in order. */
  function EventsFor(groups: map<GroupName, set<ChannelName>>, plan: seq<(GroupName, Event)>, ch: ChannelName): seq<Event> {
    if plan == [] then []
    else (if ch in MembersOf(groups, plan[0].0) then [plan[0].1] else []) + EventsFor(groups, plan[1..], ch)
  }

  /** After a series of group sends, each channel has received, in order, the events of the groups it belongs to. */
  lemma {:induction false} SendAllQueue(queues: map<ChannelName, seq<Event>>, groups: map<GroupName, set<ChannelName>>,
                                        plan: seq<(GroupName, Event)>, ch: ChannelName)
    ensures QueueOf(SendAll(queues, groups, plan), ch) == QueueOf(queues, ch) + EventsFor(groups, plan, ch)
    decreases |plan|
  {
    if plan != [] {
      var next := Deliver(queues, MembersOf(groups, plan[0].0), plan[0].1);
      var mine := if ch in MembersOf(groups, plan[0].0) then [plan[0].1] else [];
      assert QueueOf(next, ch) == QueueOf(queues, ch) + mine;
      SendAllQueue(next, groups, plan[1..], ch);
      AppendAssociative(QueueOf(queues, ch), mine, EventsFor(groups, plan[1..], ch));
    }
  }

  /** Concatenation regroups; kept generic so the solver does not look inside the events. */
  lemma AppendAssociative<T>(a: seq<T>, b: seq<T>, c: seq<T>)
    ensures (a + b) + c == a + (b + c)
  {
  }

  /** The events a channel receives from at most two sends. */
  lemma EventsForShort(groups: map<GroupName, set<ChannelName>>, plan: seq<(GroupName, Event)>, ch: ChannelName)
    requires 1 <= |plan| <= 2
    ensures EventsFor(groups, plan, ch) ==
              (if ch in MembersOf(groups, plan[0].0) then [plan[0].1] else [])
              + (if |plan| == 2 && ch in MembersOf(groups, plan[1].0) then [plan[1].1] else [])
  {
    var rest := plan[1..];
    if |plan| == 2 {
      assert rest[1..] == [];
    } else {
      assert rest == [];
    }
  }

  class ChannelLayer {
    var groups: map<GroupName, set<ChannelName>>
    var queues: map<ChannelName, seq<Event>>

    constructor ()
      ensures groups == map[] && queues == map[]
    {
      groups := map[];
      queues := map[];
    }

    function Members(g: GroupName): set<ChannelName>
      reads this
    {
      MembersOf(groups, g)
    }

    function Queue(ch: ChannelName): seq<Event>
      reads this
    {
      QueueOf(queues, ch)
    }

    method GroupAdd(g: GroupName, ch: ChannelName)
      modifies this
      ensures groups == Join(old(groups), g, ch)
      ensures queues == old(queues)
    {
      groups := Join(groups, g, ch);
    }

    method GroupDiscard(g: GroupName, ch: ChannelName)
      modifies this
      ensures groups == Discard(old(groups), g, ch)
      ensures queues == old(queues)
    {
      groups := Discard(groups, g, ch);
    }

    method GroupSend(g: GroupName, ev: Event)
      modifies this
      ensures queues == Deliver(old(queues), old(Members(g)), ev)
      ensures groups == old(groups)
    {
      queues := Deliver(queues, Members(g), ev);
    }

    /** Takes the oldest pending event of a channel, if there is one. */
    method Receive(ch: ChannelName) returns (ev: Option<Event>)
      modifies this
      ensures old(Queue(ch)) == [] ==> ev.None? && queues == old(queues)
      ensures old(Queue(ch)) != [] ==> ev == Some(old(Queue(ch))[0]) && queues == old(queues)[ch := old(Queue(ch))[1..]]
      ensures groups == old(groups)
    {
      var q := Queue(ch);
      if q == [] {
        ev := None;
      } else {
        ev := Some(q[0]);
        queues := queues[ch := q[1..]];
      }
    }
  }
}
