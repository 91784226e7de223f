# Smilin chat: presence, addressing and message delivery

This project models the rules of the Smilin chat application that decide
who is online, on which channel two users talk, which live messages a
conversation view shows, and what the HTTP endpoints and the socket
server store and send. It proves properties of that model.

The parts, one module each:

- `JsStrings`: the JavaScript string operations the code relies on. These are
  the default `sort()` order, `split('-')[0]`, `trim()` and truthiness.
- `Channels`: the conversation channel names. The chat page joins the sorted
  pair of ids with `':'` and the `/chat` page's client joins it with `'-'`.
- `Presence`: client ids built as `userId-suffix` and stripped back, and the
  presence reducer over the set of online ids.
- `ChatPage`: the chat page's state. It covers connecting, presence updates,
  the initial member list, cleanup and the peer's online flag.
- `HomePage`: the list of other users and each card's online flag.
- `ChatClient`: the `peerId` query parameter and the guards that decide when
  a channel and a chat box exist.
- `ChatBox`: the conversation view. It covers the conversation filter,
  de-duplication by message id, the typing flag, history loading, the peer's
  avatar and the sending of a message.
- `MessageInput`: the text field, its send guard and Enter handling.
- `Store`: the stored message row.
- `MessagesApi`, `SaveApi`, `UnreadCounts`: the three HTTP handlers.
- `SocketServer`: the socket server's registry from user id to socket, its
  online broadcast, and persist-then-route-and-echo of chat messages.
- `OnlineUsers`: the module-level online set.

Conventions:

- A JavaScript string is a Dafny `string` with one `char` per UTF-16 code
  unit. So comparing chars by ordinal is the order `Array.prototype.sort()`
  uses.
- `undefined` and `null` become `None`.
- A string used as a condition is truthy when it is present and not empty
  (`JsStrings.Truthy`).
- The outside world is passed in as parameters. Random suffixes, message
  ids, clocks, and whether an attach, publish or store call succeeds are all
  parameters.
- What a component sends out is recorded as data: a list of emissions or
  outgoing requests.
- State that the source updates in place is a class. Its methods tie the new
  state to a specification function of the old state.

Three behaviours of the code are worth knowing. A lemma shows each one:

- Each subscription starts with an empty set of received ids
  (src/app/components/ChatBox.tsx:80). So a message that is both fetched
  from history and delivered live is shown twice
  (`ChatBox.HistoryIsNotDeduplicated`).
- The pages keep a set of online user ids, not a count of connections. So
  when a user has two tabs open, one tab leaving takes the user offline
  (`Presence.OneLeaveTakesUserOffline`). On the socket server, a disconnect
  deletes the entry by user id, so the first of two sockets to disconnect
  unregisters the user (`SocketServer.FirstTabDisconnectUnregisters`).
- The save endpoint checks the message id but does not store it. So saving
  the same message twice stores two identical rows
  (`SaveApi.SavingTwiceStoresTwice`).

## Model

| member | source | states |
|---|---|---|
| `JsStrings.LessAsymmetric` | src/app/chat/ChatPageClient.tsx:52 | the default sort order is asymmetric: `a < b` excludes `b < a` |
| `JsStrings.LessTotal` | src/app/chat/ChatPageClient.tsx:52 | the default sort order is total: of two distinct strings, one is smaller |
| `JsStrings.SortPair` | src/app/chat/ChatPageClient.tsx:52 | `[a, b].sort()` holds the same two strings, the smaller first |
| `JsStrings.SortPairSymmetric` | src/app/chat/ChatClient.tsx:44 | sorting two ids gives the same pair whichever order they were given in |
| `JsStrings.SplitHead` | src/app/chat/ChatPageClient.tsx:68 | `s.split(d)[0]` is the prefix of `s` that holds no `d` and is followed by `d` or by the end of `s` |
| `JsStrings.SplitHeadOfJoined` | src/app/page.tsx:44 | splitting `u + d + x` at `d` gives back `u` if and only if `u` holds no `d` |
| `JsStrings.TrimStart` | src/app/components/MessageInput.tsx:11 | removes exactly the leading white space: the rest is a suffix that starts with a non-space |
| `JsStrings.TrimEnd` | src/app/components/MessageInput.tsx:11 | removes exactly the trailing white space: the rest is a prefix that ends with a non-space |
| `JsStrings.Trim` | src/app/components/MessageInput.tsx:11 | `trim()` removes white space from both ends only: the result is a piece of the input with white space on each side of it, and it neither starts nor ends with white space |
| `JsStrings.TrimEmptyIff` | src/app/components/MessageInput.tsx:11 | `message.trim()` is empty if and only if every character of `message` is white space |
| `Channels.ChannelName` | src/app/chat/ChatPageClient.tsx:52 | the channel name is one id, the delimiter, then the other id |
| `Channels.ChannelNameOrdered` | src/app/chat/ChatPageClient.tsx:52 | the name is the smaller id, the delimiter, then the larger id |
| `Channels.ChannelNameCommutes` | src/app/chat/ChatPageClient.tsx:52 | the name for (a, b) equals the name for (b, a) |
| `Channels.ChannelNameInjective` | src/app/chat/ChatClient.tsx:44 | for ids without the delimiter, equal names mean the same unordered pair |
| `Channels.PageAndClientChannelsDiffer` | src/app/chat/ChatClient.tsx:44 | for one pair, the `':'` name of the chat page differs from the `'-'` name of the chat client |
| `Channels.PageAndClientChannelsNeverShared` | src/app/chat/ChatClient.tsx:44 | a `':'` name never equals a `'-'` name of ids without `':'`, so the two pages never share a channel |
| `Channels.PageChannelIsNotPresence` | src/app/chat/ChatPageClient.tsx:52-57 | a conversation channel of the chat page is never `global-presence` |
| `Channels.ClientChannelCanBePresence` | src/app/chat/ChatClient.tsx:44 | the chat client's channel for the ids "global" and "presence" is `global-presence` |
| `Presence.ClientId` | src/app/page.tsx:14-16 | a client id starts with the user id and `'-'`, and the suffix follows |
| `Presence.StripSuffix` | src/app/page.tsx:44 | the stripped id is a prefix of the client id that holds no `'-'` and is followed by `'-'` or by the end of the client id |
| `Presence.StripClientId` | src/app/chat/ChatPageClient.tsx:48-68 | stripping `userId-suffix` returns `userId` if and only if `userId` holds no `'-'` |
| `Presence.StripIgnoresSuffix` | src/app/page.tsx:14-44 | two connections of one user strip to the same id, whatever their suffixes |
| `Presence.PresenceStep` | src/app/chat/ChatPageClient.tsx:66-76 | `enter`/`update` adds the stripped id, `leave`/`absent` removes it, any other action changes nothing, and no other id changes |
| `Presence.OneLeaveTakesUserOffline` | src/app/chat/ChatPageClient.tsx:66-76 | after two tabs of a user entered, one `leave` removes the user though the other tab is still present |
| `Presence.DashedIdNeverOnline` | src/app/page.tsx:44-47 | a user id containing `'-'` is not added by its own `enter` |
| `Presence.ClientIdHasOneSeparator` | src/app/page.tsx:14-16 | a base-36 random suffix holds no `'-'`, so the client id of a `'-'`-free user id has its only `'-'` right after the user id |
| `Presence.CurrentOnline` | src/app/chat/ChatPageClient.tsx:82-85 | the `forEach` loop collects exactly the stripped ids of all members |
| `ChatPage.ChatPageClient.constructor` | src/app/chat/ChatPageClient.tsx:26-30 | the page starts with no channel and nobody online |
| `ChatPage.ChatPageClient.Connect` | src/app/chat/ChatPageClient.tsx:46-54 | a client id and the `':'` channel exist only when auth has loaded, a user is present and the key is non-empty; otherwise nothing changes |
| `ChatPage.ChatPageClient.OnPresence` | src/app/chat/ChatPageClient.tsx:65-77 | the set after a presence message is `PresenceStep` of the set before |
| `ChatPage.ChatPageClient.LoadMembers` | src/app/chat/ChatPageClient.tsx:81-86 | the initial fetch replaces the set with exactly the members' stripped ids |
| `ChatPage.ChatPageClient.Cleanup` | src/app/chat/ChatPageClient.tsx:92-99 | cleanup leaves no channel and an empty online set |
| `ChatPage.ChatPageClient.PeerIsOnline` | src/app/chat/ChatPageClient.tsx:102 | the peer is shown online if and only if its id is in the set; `ChatPage.PeerFollowsPresence` says how presence messages change that |
| `ChatPage.PeerFollowsPresence` | src/app/chat/ChatPageClient.tsx:66-76 | for a `'-'`-free peer id, the peer's `enter` puts it in the online set, its `leave` takes it out, and a message about anyone else leaves its membership as it was |
| `HomePage.OtherUsers` | src/app/page.tsx:70-74 | signed in, the list holds exactly the fetched users whose id is not the current user's; signed out, it is the fetched list |
| `HomePage.OtherUsersKeepOrder` | src/app/page.tsx:71 | the filter keeps the original order: it distributes over concatenation |
| `HomePage.OnlineFlags` | src/app/page.tsx:97-98 | one flag per user, true if and only if the user's id is in `onlineIds` |
| `HomePage.CardFollowsPresence` | src/app/page.tsx:98 | for an id without `'-'`, a card turns online on an `enter` of that user and offline on a `leave` |
| `HomePage.HomePage.constructor` | src/app/page.tsx:22-23 | the page starts with no users and nobody online |
| `HomePage.HomePage.OnPresence` | src/app/page.tsx:41-54 | the set after a presence message is `PresenceStep` of the set before |
| `HomePage.HomePage.LoadUsers` | src/app/page.tsx:64-78 | once auth has loaded, the users shown are the fetched users other than the current one; before, nothing changes |
| `HomePage.HomePage.Cards` | src/app/page.tsx:97-98 | each card is online if and only if its user's id is in `onlineIds` |
| `ChatClient.GetParam` | src/app/chat/ChatClient.tsx:20 | `get` returns the value of the first pair with the key, and null if and only if no pair has it |
| `ChatClient.PeerIdParam` | src/app/chat/ChatClient.tsx:20 | with search parameters, the peer is the value of the first `peerId` pair, and undefined if there is none; without search parameters it is undefined |
| `ChatClient.ShowsChatBox` | src/app/chat/ChatClient.tsx:84 | the chat box renders if and only if there is a channel and the peer id is neither undefined nor empty |
| `ChatClient.ChannelAfterEffect` | src/app/chat/ChatClient.tsx:37-53 | the `'-'` channel is opened exactly when auth has loaded, a user is present and the peer id is truthy; otherwise the state is untouched |
| `ChatClient.ChatBoxNeedsUserAndPeer` | src/app/chat/ChatClient.tsx:84 | from no channel, the chat box shows if and only if user, auth and a truthy peer are present, and then on the pair's shared channel |
| `ChatClient.NoPeerParamNoChatBox` | src/app/chat/ChatClient.tsx:20 | without a `peerId` parameter there is no peer and no chat box |
| `ChatBox.InConversation` | src/app/components/ChatBox.tsx:87-90 | a message belongs to the conversation if and only if there is a peer and the message's sender and recipient are the user and the peer, in either order |
| `ChatBox.OutgoingMessage` | src/app/components/ChatBox.tsx:142-150 | the sent message is from the user to the peer with the given id, text and time, and passes both sides' conversation filters |
| `ChatBox.SendMessage` | src/app/components/ChatBox.tsx:130-163 | nothing is sent without a truthy peer or when attaching fails; otherwise the message is published first and a save is requested only after a successful publish |
| `ChatBox.Receive` | src/app/components/ChatBox.tsx:82-104 | a chat message is appended if and only if the view is subscribed, the message is between user and peer and its id is new; on acceptance the id joins the set and earlier messages stay; typing is raised only by peer-to-user typing events |
| `ChatBox.ReceiveIdempotent` | src/app/components/ChatBox.tsx:91-94 | receiving the same event twice has the effect of receiving it once |
| `ChatBox.ReceiveKeepsAddedOnce` | src/app/components/ChatBox.tsx:91-93 | one event keeps the added messages in the conversation and pairwise distinct by id |
| `ChatBox.RunAddsEachIdOnce` | src/app/components/ChatBox.tsx:80-106 | over any sequence of events, the messages a subscription adds belong to the conversation and no id appears twice among them |
| `ChatBox.UnsubscribedRunIsNoOp` | src/app/components/ChatBox.tsx:83-109 | after cleanup, any sequence of events leaves the view unchanged |
| `ChatBox.HistoryIsNotDeduplicated` | src/app/components/ChatBox.tsx:54-93 | a message loaded from history that also arrives live is shown twice |
| `ChatBox.HistoryMessages` | src/app/components/ChatBox.tsx:50-59 | an array body is shown as it is; any other body or a failed fetch shows an empty list |
| `ChatBox.LastFromPeer` | src/app/components/ChatBox.tsx:43-45 | finds the last message from the peer, or reports that there is none |
| `ChatBox.PeerAvatar` | src/app/components/ChatBox.tsx:43-45 | if some message is from the peer, the avatar is that of the last such message; if none is, it is undefined |
| `ChatBox.ChatBox.constructor` | src/app/components/ChatBox.tsx:37-38 | the view starts with no messages and no typing flag |
| `ChatBox.ChatBox.LoadHistory` | src/app/components/ChatBox.tsx:47-63 | without a truthy peer the fetch is skipped; otherwise the list becomes the history result |
| `ChatBox.ChatBox.Subscribe` | src/app/components/ChatBox.tsx:65-80 | if the channel is attached or attaches, a subscription starts with an empty received set; otherwise nothing changes |
| `ChatBox.ChatBox.HandleMessage` | src/app/components/ChatBox.tsx:82-104 | the view after an event is `Receive` of the view before |
| `ChatBox.ChatBox.Unsubscribe` | src/app/components/ChatBox.tsx:108-111 | cleanup clears the subscribed flag |
| `MessageInput.MessageInput.constructor` | src/app/components/MessageInput.tsx:8 | the field starts empty |
| `MessageInput.MessageInput.OnChange` | src/app/components/MessageInput.tsx:24 | typing replaces the text with the typed value |
| `MessageInput.MessageInput.HandleSend` | src/app/components/MessageInput.tsx:10-15 | all-white-space text is not sent and stays; other text is handed to `onSend` untrimmed and the field is cleared |
| `MessageInput.MessageInput.OnKeyDown` | src/app/components/MessageInput.tsx:25 | Enter behaves exactly as `handleSend`; other keys change nothing |
| `MessagesApi.IsIdParam` | src/pages/api/messages.ts:8 | a query value is accepted as an id if and only if it is a single truthy string |
| `MessagesApi.Between` | src/pages/api/messages.ts:14-19 | a row matches the `where` clause if and only if its sender and recipient are the two ids, in either order |
| `MessagesApi.Conversation` | src/pages/api/messages.ts:13-19 | every returned message is between the two users in one direction or the other, and every such stored message is returned as often as it is stored |
| `MessagesApi.ConversationSymmetric` | src/pages/api/messages.ts:15-18 | swapping the two users selects the same messages |
| `MessagesApi.Insert` | src/pages/api/messages.ts:20-22 | inserting into an ascending list gives an ascending list with one more message |
| `MessagesApi.SortByTimestamp` | src/pages/api/messages.ts:20-22 | the result is ascending by timestamp and a permutation of the input |
| `MessagesApi.GetMessages` | src/pages/api/messages.ts:5-30 | 400 if and only if an id is missing, empty or not a string; 500 if the query fails; otherwise exactly the conversation, ascending by timestamp |
| `MessagesApi.GetMessagesSymmetric` | src/pages/api/messages.ts:13-25 | asking as either party gives the same response |
| `SaveApi.HasRequiredFields` | src/pages/api/messages/save.ts:13 | the guard passes if and only if the message id, sender, recipient, text and timestamp are all truthy |
| `SaveApi.Record` | src/pages/api/messages/save.ts:18-26 | the stored row holds the sender, recipient, username, avatar, text and parsed timestamp, and no message id |
| `SaveApi.SaveMessage` | src/pages/api/messages/save.ts:6-34 | non-POST gets 405 and a missing or empty required field gets 400, both storing nothing; a failed create gets 500 and stores nothing; 201 with the saved row if and only if the create succeeds, which then appends exactly that row |
| `SaveApi.SavingTwiceStoresTwice` | src/pages/api/messages/save.ts:13-27 | saving one message twice stores two identical rows |
| `SaveApi.MessageIdNotStored` | src/pages/api/messages/save.ts:11-26 | two bodies that differ only in message id store the same row |
| `UnreadCounts.RowsOf` | src/pages/api/unread-counts.ts:14-20 | the query returns exactly the rows of the caller |
| `UnreadCounts.CountsKeys` | src/pages/api/unread-counts.ts:23-26 | the object's keys are exactly the senders in the rows; no rows gives an empty object |
| `UnreadCounts.CountsLastRowWins` | src/pages/api/unread-counts.ts:24-25 | a sender's value is the count of its last row |
| `UnreadCounts.CountsObject` | src/pages/api/unread-counts.ts:23-26 | the loop builds the fold of the rows |
| `UnreadCounts.GetUnreadCounts` | src/pages/api/unread-counts.ts:6-33 | no truthy caller id gives 401 whatever the table holds; a failing query gives 500; otherwise the fold of the caller's rows |
| `UnreadCounts.AnswerKeysAreSenders` | src/pages/api/unread-counts.ts:14-26 | a key is in the answer if and only if some row of the caller has that sender |
| `SocketServer.Keys` | src/pages/api/socket.ts:25 | the online list has the map's keys in entry order |
| `SocketServer.Get` | src/pages/api/socket.ts:57 | a lookup finds an entry of the key, and none if and only if the key is absent |
| `SocketServer.Set` | src/pages/api/socket.ts:37 | setting keeps a present key in its place, or appends a new key |
| `SocketServer.SetGet` | src/pages/api/socket.ts:37 | after a connect the user maps to the new socket, overwriting the old one, and other users are unchanged |
| `SocketServer.SetKeepsKeysDistinct` | src/pages/api/socket.ts:37 | connecting never registers a user twice |
| `SocketServer.Delete` | src/pages/api/socket.ts:69 | after a disconnect the user is absent and other users are unchanged |
| `SocketServer.OnlineListIsKeySet` | src/pages/api/socket.ts:24-26 | the broadcast list names every registered user once and nobody else |
| `SocketServer.FirstTabDisconnectUnregisters` | src/pages/api/socket.ts:37-70 | if a user connects twice and the first socket disconnects, the user is unregistered though the second socket is live |
| `SocketServer.Row` | src/pages/api/socket.ts:44-53 | the stored row copies the message's fields, takes the server time, and stores an empty avatar as null |
| `SocketServer.Route` | src/pages/api/socket.ts:55-62 | the recipient's socket gets the message if and only if the recipient is registered; the sending socket always gets the echo, last |
| `SocketServer.RoutedCopiesDifferOnlyInTimestamp` | src/pages/api/socket.ts:55 | every emitted copy equals the input except for the server's timestamp |
| `SocketServer.SocketServer.constructor` | src/pages/api/socket.ts:12 | the registry, the store and the output start empty |
| `SocketServer.SocketServer.EmitOnlineUsers` | src/pages/api/socket.ts:24-27 | broadcasts the current key list, which names every registered user exactly once and nobody else |
| `SocketServer.SocketServer.OnConnection` | src/pages/api/socket.ts:29-38 | without a user id nothing changes and no handlers exist; otherwise the entry is overwritten and the list broadcast |
| `SocketServer.SocketServer.OnChatMessage` | src/pages/api/socket.ts:40-66 | a failed store emits nothing; otherwise the row is stored first, then the message is routed and echoed |
| `SocketServer.SocketServer.OnDisconnect` | src/pages/api/socket.ts:68-71 | the user's entry is deleted unconditionally and the list broadcast |
| `OnlineUsers.Add` | src/app/lib/onlineUsers.ts:3-5 | after an add the user is a member, members stay members, and nobody is listed twice |
| `OnlineUsers.Remove` | src/app/lib/onlineUsers.ts:7-9 | after a remove the user is not a member and the other members are unchanged |
| `OnlineUsers.AddIdempotent` | src/app/lib/onlineUsers.ts:3-5 | adding twice equals adding once |
| `OnlineUsers.RemoveAbsent` | src/app/lib/onlineUsers.ts:7-9 | removing an absent user changes nothing |
| `OnlineUsers.RemoveUndoesAdd` | src/app/lib/onlineUsers.ts:3-9 | removing a user just added restores the set, order included |
| `OnlineUsers.OnlineUserSet.constructor` | src/app/lib/onlineUsers.ts:1 | the set starts empty |
| `OnlineUsers.OnlineUserSet.AddOnlineUser` | src/app/lib/onlineUsers.ts:3-5 | the set becomes `Add` of the old set |
| `OnlineUsers.OnlineUserSet.RemoveOnlineUser` | src/app/lib/onlineUsers.ts:7-9 | the set becomes `Remove` of the old set |
| `OnlineUsers.OnlineUserSet.GetOnlineUsers` | src/app/lib/onlineUsers.ts:11-13 | returns every member exactly once and nothing else, in insertion order |

## Left out

- Rendering is not modelled: JSX, styling, scrolling, Clerk components and `date-fns` times are all UI.
- The peer-profile fetch (`fetchPeerUser`) is not modelled. It only sets the header's name and picture.
- The Ably and socket.io transports are outside the model. Whether attach, publish or a store call succeeds is a boolean parameter. Emitted events are recorded in a list. Server set-up (`res.socket.server.io`, CORS) is left out.
- Randomness and clocks are parameters: the client-id suffix, `crypto.randomUUID()`, `new Date()` and its ISO form. `Presence.IsRandomSuffix` describes the suffixes `Math.random().toString(36).slice(2, 8)` can produce.
- The typing indicator's 3-second timer is left out; only the flag being raised is modelled.
- `handleTyping` in src/app/components/ChatBox.tsx:165-180 is not modelled. `MessageInput` takes only `onSend`, so no typing event is ever published.
- The `send` button and Enter are modelled; key events during text composition are not.
- The database is a sequence of rows. Prisma's `orderBy` does not fix the order of rows with equal timestamps.
- `MessagesApi.GetMessages`: among messages with equal timestamps the model picks one order. The store may return another.
- React effect scheduling is left out. That includes races between the history fetch and live appends, and StrictMode double calls. Each handler runs as one step. `ChatBox.ChatBox.LoadHistory` replaces the list, as `setMessages(data)` does.
- JSON values of unexpected types are not modelled, such as a number where a string is expected. Fields are strings or absent. Query values are absent, single or repeated.
- In src/pages/api/socket.ts, `...msg` keeps any extra fields the client sent. `SocketServer.WireMessage` has only the fields the server reads.
- The key order of the unread-count object is left out. It is a `map`.
- The ids `"global"` and `"presence"` give a chat-client channel named `global-presence`. The chat client never attaches to the presence channel itself, so this is noted by a lemma and not treated as a defect.
- Characters outside the Basic Multilingual Plane (UTF-16 surrogate pairs) are not represented.
- These source files are not part of this model: src/pages/api/unreadCounts/increment.ts and reset.ts (their counter logic is commented out), src/pages/api/online-users.ts (its set is never filled), and src/utils/socketServer.ts, src/app/lib/socket.ts, src/app/lib/socketClient.ts and src/utils/ably.ts (transport plumbing).
