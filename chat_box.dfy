/**
  The conversation view (src/app/components/ChatBox.tsx): it loads the
  history with the peer, appends live chat messages of this conversation
  once per message id, raises the typing flag for the peer, and builds and
  sends outgoing messages.
*/
module ChatBox {
  import opened Wrappers
  import opened JsStrings

  datatype ChatMessage = ChatMessage(
    messageId: string,
    fromUserId: string,
    toUserId: string,
    username: string,
    avatarUrl: Option<string>,
    text: string,
    timestamp: string)

  /** What arrives on the conversation channel, by message name. */
  datatype ChannelMessage =
    | ChatEvent(data: ChatMessage)
    | TypingEvent(fromUserId: string, toUserId: string)
    | OtherEvent(name: string)

  /** The conversation test: from the user to the peer, or from the peer to the user. */
  predicate InConversation(m: ChatMessage, userId: string, peerId: Option<string>): (r: bool)
    ensures r <==> peerId.Some? && {m.fromUserId, m.toUserId} == {userId, peerId.value}
  {
    peerId.Some? &&
    ((m.fromUserId == userId && m.toUserId == peerId.value) ||
     (m.fromUserId == peerId.value && m.toUserId == userId))
  }

  /**
    The view as the subscription sees it: the messages shown, the typing
    flag, the ids the subscription has received, and whether it is still
    subscribed.
  */
  datatype View = View(messages: seq<ChatMessage>, isTyping: bool, received: set<string>, subscribed: bool)

  /** A live chat message the subscription appends. */
  predicate Accepts(v: View, m: ChatMessage, userId: string, peerId: Option<string>) {
    v.subscribed && InConversation(m, userId, peerId) && m.messageId !in v.received
  }

  /** `handleMessage` as a function of the view. */
  function Receive(v: View, msg: ChannelMessage, userId: string, peerId: Option<string>): (w: View)
    ensures w.subscribed == v.subscribed
    ensures !v.subscribed ==> w == v
    ensures v.messages <= w.messages && |w.messages| <= |v.messages| + 1
    ensures |w.messages| == |v.messages| + 1 <==> msg.ChatEvent? && Accepts(v, msg.data, userId, peerId)
    ensures |w.messages| == |v.messages| + 1 ==>
              w.messages[|v.messages|] == msg.data && w.received == v.received + {msg.data.messageId}
    ensures |w.messages| == |v.messages| ==> w.messages == v.messages && w.received == v.received
    ensures w.isTyping <==> v.isTyping || (v.subscribed && msg.TypingEvent? &&
                                           peerId == Some(msg.fromUserId) && msg.toUserId == userId)
  {
    if !v.subscribed then v
    else match msg
      case ChatEvent(m) =>
        if InConversation(m, userId, peerId) && m.messageId !in v.received then
          v.(messages := v.messages + [m], received := v.received + {m.messageId})
        else v
      case TypingEvent(from, to) =>
        if peerId == Some(from) && to == userId then v.(isTyping := true) else v
      case OtherEvent(_) => v
  }

  /** A redelivered message changes nothing: receiving is idempotent. */
  lemma ReceiveIdempotent(v: View, msg: ChannelMessage, userId: string, peerId: Option<string>)
    ensures Receive(Receive(v, msg, userId, peerId), msg, userId, peerId) == Receive(v, msg, userId, peerId)
  {
  }

  /** The events of one subscription, delivered in order. */
  function Run(v: View, msgs: seq<ChannelMessage>, userId: string, peerId: Option<string>): View
    decreases |msgs|
  {
    if msgs == [] then v else Run(Receive(v, msgs[0], userId, peerId), msgs[1..], userId, peerId)
  }

  /**
    What the subscription has added on top of `shown`: messages of this
    conversation, each with an id it has received, no id twice.
  */
  ghost predicate AddedOnce(shown: seq<ChatMessage>, v: View, userId: string, peerId: Option<string>) {
    && shown <= v.messages
    && (forall i :: |shown| <= i < |v.messages| ==>
          InConversation(v.messages[i], userId, peerId) && v.messages[i].messageId in v.received)
    && (forall i, j :: |shown| <= i < j < |v.messages| ==> v.messages[i].messageId != v.messages[j].messageId)
  }

  lemma ReceiveKeepsAddedOnce(shown: seq<ChatMessage>, v: View, msg: ChannelMessage, userId: string, peerId: Option<string>)
    requires AddedOnce(shown, v, userId, peerId)
    ensures AddedOnce(shown, Receive(v, msg, userId, peerId), userId, peerId)
  {
  }

  /**
    However the transport redelivers, the messages a subscription appends
    after those already shown belong to the conversation and carry pairwise
    distinct ids; the shown ones stay as they were.
  */
  lemma {:induction false} RunAddsEachIdOnce(shown: seq<ChatMessage>, v: View, msgs: seq<ChannelMessage>,
                                             userId: string, peerId: Option<string>)
    requires AddedOnce(shown, v, userId, peerId)
    ensures AddedOnce(shown, Run(v, msgs, userId, peerId), userId, peerId)
    decreases |msgs|
  {
    if msgs != [] {
      ReceiveKeepsAddedOnce(shown, v, msgs[0], userId, peerId);
      RunAddsEachIdOnce(shown, Receive(v, msgs[0], userId, peerId), msgs[1..], userId, peerId);
    }
  }

  /** After the cleanup has run, no event changes the view. */
  lemma {:induction false} UnsubscribedRunIsNoOp(v: View, msgs: seq<ChannelMessage>, userId: string, peerId: Option<string>)
    requires !v.subscribed
    ensures Run(v, msgs, userId, peerId) == v
    decreases |msgs|
  {
    if msgs != [] {
      UnsubscribedRunIsNoOp(Receive(v, msgs[0], userId, peerId), msgs[1..], userId, peerId);
    }
  }

  /**
    The received ids are not seeded from the history: a message already
    loaded from history is shown a second time when it also arrives live.
  */
  lemma HistoryIsNotDeduplicated(m: ChatMessage, userId: string, peerId: string, isTyping: bool)
    requires InConversation(m, userId, Some(peerId))
    ensures Receive(View([m], isTyping, {}, true), ChatEvent(m), userId, Some(peerId)).messages == [m, m]
  {
  }

  // ----- History -----

  /** What `fetch('/api/messages?...')` followed by `res.json()` yields. */
  datatype HistoryResponse = JsonArray(items: seq<ChatMessage>) | JsonOther | FetchFailed

  /** The list the history effect shows: the array if the body is one, else nothing. */
  function HistoryMessages(res: HistoryResponse): (messages: seq<ChatMessage>)
    ensures res.JsonArray? ==> messages == res.items
    ensures !res.JsonArray? ==> messages == []
  {
    match res
    case JsonArray(items) => items
    case _ => []
  }

  // ----- The peer's avatar -----

  /** The index of the last message from the peer, if there is one. */
  function LastFromPeer(messages: seq<ChatMessage>, peerId: Option<string>): (k: Option<nat>)
    ensures k.Some? ==> k.value < |messages| && Some(messages[k.value].fromUserId) == peerId
                        && forall j :: k.value < j < |messages| ==> Some(messages[j].fromUserId) != peerId
    ensures k.None? ==> forall j :: 0 <= j < |messages| ==> Some(messages[j].fromUserId) != peerId
    decreases |messages|
  {
    if messages == [] then None
    else if Some(messages[|messages| - 1].fromUserId) == peerId then Some(|messages| - 1)
    else LastFromPeer(messages[..|messages| - 1], peerId)
  }

  /** `[...messages].reverse().find((m) => m.fromUserId === peerId)?.avatarUrl` */
  function PeerAvatar(messages: seq<ChatMessage>, peerId: Option<string>): (avatar: Option<string>)
    ensures avatar.Some? ==> exists k :: 0 <= k < |messages| && Some(messages[k].fromUserId) == peerId
                                         && messages[k].avatarUrl == avatar
                                         && forall j :: k < j < |messages| ==> Some(messages[j].fromUserId) != peerId
    ensures (forall j :: 0 <= j < |messages| ==> Some(messages[j].fromUserId) != peerId) ==> avatar.None?
    ensures forall k :: 0 <= k < |messages| && Some(messages[k].fromUserId) == peerId
                        && (forall j :: k < j < |messages| ==> Some(messages[j].fromUserId) != peerId)
                        ==> avatar == messages[k].avatarUrl
  {
    match LastFromPeer(messages, peerId)
    case None => None
    case Some(k) => messages[k].avatarUrl
  }

  // ----- Sending -----

  /** What `sendMessage` asks of the outside world, in order. */
  datatype Outgoing = Publish(msg: ChatMessage) | SaveRequest(msg: ChatMessage)

  /** The message `sendMessage` builds; the id and the timestamp come from outside. */
  function OutgoingMessage(messageId: string, userId: string, peerId: string, username: string,
                           avatarUrl: Option<string>, text: string, timestamp: string): (m: ChatMessage)
    ensures m.messageId == messageId && m.fromUserId == userId && m.toUserId == peerId
    ensures m.username == username && m.avatarUrl == avatarUrl && m.text == text && m.timestamp == timestamp
    ensures InConversation(m, userId, Some(peerId)) && InConversation(m, peerId, Some(userId))
  {
    ChatMessage(messageId, userId, peerId, username, avatarUrl, text, timestamp)
  }

  /**
    `sendMessage(text)`: without a peer, or when the channel is detached and
    attaching fails, nothing happens; otherwise the message is published and,
    only if publishing succeeded, posted to the save endpoint.
  */
  function SendMessage(userId: string, username: string, avatarUrl: Option<string>, peerId: Option<string>,
                       text: string, attached: bool, attachOk: bool, publishOk: bool,
                       freshId: string, now: string): (effects: seq<Outgoing>)
    ensures |effects| <= 2
    ensures effects != [] <==> Truthy(peerId) && (attached || attachOk)
    ensures effects != [] ==> effects[0] == Publish(OutgoingMessage(freshId, userId, peerId.value, username, avatarUrl, text, now))
    ensures |effects| == 2 <==> Truthy(peerId) && (attached || attachOk) && publishOk
    ensures |effects| == 2 ==> effects[1] == SaveRequest(effects[0].msg)
  {
    if !Truthy(peerId) then []
    else if !attached && !attachOk then []
    else
      var msg := OutgoingMessage(freshId, userId, peerId.value, username, avatarUrl, text, now);
      if publishOk then [Publish(msg), SaveRequest(msg)] else [Publish(msg)]
  }

  // ----- The component -----

  class ChatBox {
    const userId: string
    const peerId: Option<string>
    /** The `messages` state. */
    var messages: seq<ChatMessage>
    /** The `isTyping` state. */
    var isTyping: bool
    /** The current subscription's `receivedMessages` set. */
    var receivedMessages: set<string>
    /** The current subscription's `isSubscribed` flag. */
    var isSubscribed: bool

    function State(): View
      reads this
    {
      View(messages, isTyping, receivedMessages, isSubscribed)
    }

    constructor (userId: string, peerId: Option<string>)
      ensures this.userId == userId && this.peerId == peerId
      ensures State() == View([], false, {}, false)
    {
      this.userId := userId;
      this.peerId := peerId;
      messages := [];
      isTyping := false;
      receivedMessages := {};
      isSubscribed := false;
    }

    /** The history effect: skipped without a peer, otherwise it replaces the list. */
    method LoadHistory(res: HistoryResponse)
      modifies this`messages
      ensures messages == if Truthy(peerId) then HistoryMessages(res) else old(messages)
    {
      if !Truthy(peerId) {
        return;
      }
      match res {
        case JsonArray(items) => messages := items;
        case _ => messages := [];
      }
    }

    /**
      The subscription effect: if the channel is attached or attaches, a new
      subscription starts with an empty set of received ids.
    */
    method Subscribe(attached: bool, attachOk: bool) returns (subscribed: bool)
      modifies this`receivedMessages, this`isSubscribed
      ensures subscribed <==> attached || attachOk
      ensures subscribed ==> receivedMessages == {} && isSubscribed
      ensures !subscribed ==> receivedMessages == old(receivedMessages) && isSubscribed == old(isSubscribed)
    {
      if !attached && !attachOk {
        return false;
      }
      receivedMessages := {};
      isSubscribed := true;
      subscribed := true;
    }

    /** `handleMessage` */
    method HandleMessage(msg: ChannelMessage)
      modifies this`messages, this`isTyping, this`receivedMessages
      ensures State() == Receive(old(State()), msg, userId, peerId)
    {
      if !isSubscribed {
        return;
      }
      match msg {
        case ChatEvent(data) =>
          if InConversation(data, userId, peerId) && data.messageId !in receivedMessages {
            receivedMessages := receivedMessages + {data.messageId};
            messages := messages + [data];
          }
        case TypingEvent(from, to) =>
          if peerId == Some(from) && to == userId {
            isTyping := true;
          }
        case OtherEvent(_) =>
      }
    }

    /** The subscription's cleanup. */
    method Unsubscribe()
      modifies this`isSubscribed
      ensures !isSubscribed
    {
      isSubscribed := false;
    }
  }
}
