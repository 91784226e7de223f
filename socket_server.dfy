/**
  The socket server (src/pages/api/socket.ts): a registry from user id to
  that user's socket, kept in a JavaScript `Map`, the online list broadcast
  from it, and chat messages stored and then routed to the recipient and
  echoed to the sender.
*/
module SocketServer {
  import opened Wrappers
  import opened JsStrings
  import opened Store

  // ----- The registry: a JavaScript Map, which keeps its keys in insertion order -----

  datatype Entry = Entry(userId: string, socketId: string)

  predicate DistinctKeys(es: seq<Entry>) {
    forall i, j :: 0 <= i < j < |es| ==> es[i].userId != es[j].userId
  }

  /** `Array.from(map.keys())` */
  function Keys(es: seq<Entry>): (ks: seq<string>)
    ensures |ks| == |es| && forall i :: 0 <= i < |es| ==> ks[i] == es[i].userId
    decreases |es|
  {
    if es == [] then [] else [es[0].userId] + Keys(es[1..])
  }

  /** `map.get(k)` */
  function Get(es: seq<Entry>, k: string): (v: Option<string>)
    ensures v.None? <==> k !in Keys(es)
    ensures v.Some? ==> Entry(k, v.value) in es
    decreases |es|
  {
    if es == [] then None
    else if es[0].userId == k then Some(es[0].socketId)
    else Get(es[1..], k)
  }

  /** `map.set(k, v)`: a present key keeps its place and takes the new value; a new key goes last. */
  function Set(es: seq<Entry>, k: string, v: string): (r: seq<Entry>)
    ensures Keys(r) == if k in Keys(es) then Keys(es) else Keys(es) + [k]
    decreases |es|
  {
    if es == [] then [Entry(k, v)]
    else if es[0].userId == k then
      assert ([Entry(k, v)] + es[1..])[1..] == es[1..];
      [Entry(k, v)] + es[1..]
    else
      var rest := Set(es[1..], k, v);
      assert ([es[0]] + rest)[1..] == rest;
      [es[0]] + rest
  }

  /** After `set`, the key maps to the new value and every other key to what it did before. */
  lemma {:induction false} SetGet(es: seq<Entry>, k: string, v: string)
    ensures Get(Set(es, k, v), k) == Some(v)
    ensures forall k' :: k' != k ==> Get(Set(es, k, v), k') == Get(es, k')
    decreases |es|
  {
    if es != [] && es[0].userId != k {
      SetGet(es[1..], k, v);
    }
  }

  /** `set` keeps the keys distinct. */
  lemma SetKeepsKeysDistinct(es: seq<Entry>, k: string, v: string)
    requires DistinctKeys(es)
    ensures DistinctKeys(Set(es, k, v))
  {
    var r := Set(es, k, v);
    assert forall i :: 0 <= i < |r| ==> r[i].userId == Keys(r)[i];
    assert forall i :: 0 <= i < |es| ==> es[i].userId == Keys(es)[i];
  }

  /** `map.delete(k)`: the entry for `k` goes, the others stay. */
  function Delete(es: seq<Entry>, k: string): (r: seq<Entry>)
    ensures Get(r, k) == None
    ensures forall k' :: k' != k ==> Get(r, k') == Get(es, k')
    ensures forall e :: e in r <==> e in es && e.userId != k
    ensures DistinctKeys(es) ==> DistinctKeys(r)
    decreases |es|
  {
    if es == [] then []
    else if es[0].userId == k then Delete(es[1..], k)
    else [es[0]] + Delete(es[1..], k)
  }

  /** The broadcast online list names every registered user, each once, and no one else. */
  lemma {:induction false} OnlineListIsKeySet(es: seq<Entry>)
    requires DistinctKeys(es)
    ensures forall u :: u in Keys(es) <==> exists e :: e in es && e.userId == u
    ensures forall i, j :: 0 <= i < j < |Keys(es)| ==> Keys(es)[i] != Keys(es)[j]
  {
    forall u | exists e :: e in es && e.userId == u
      ensures u in Keys(es)
    {
      var e :| e in es && e.userId == u;
      var i :| 0 <= i < |es| && es[i] == e;
      assert Keys(es)[i] == u;
    }
  }

  /**
    A user who connects from a second tab and then closes the first is off
    the registry, though the second tab's socket is still connected: the
    disconnect deletes by user id, whichever socket it came from.
  */
  lemma FirstTabDisconnectUnregisters(es: seq<Entry>, userId: string, firstSocket: string, secondSocket: string)
    ensures var both := Set(Set(es, userId, firstSocket), userId, secondSocket);
            && Get(both, userId) == Some(secondSocket)
            && Get(Delete(both, userId), userId) == None
  {
    SetGet(Set(es, userId, firstSocket), userId, secondSocket);
  }

  // ----- Messages -----

  /** A chat message as the client emits it. */
  datatype WireMessage = WireMessage(
    fromUserId: string,
    toUserId: string,
    username: Option<string>,
    avatarUrl: Option<string>,
    text: string,
    timestamp: Option<string>)

  /** What the server emits, and to whom. */
  datatype Emission =
    | OnlineUsers(userIds: seq<string>)          // io.emit('online-users', ...)
    | ChatTo(socketId: string, msg: WireMessage) // io.to(id).emit / socket.emit('chat message', ...)

  /** The row stored for a message received at `now`; an empty avatar is stored as null. */
  function Row(msg: WireMessage, now: int): (row: StoredMessage)
    ensures row.fromUserId == msg.fromUserId && row.toUserId == msg.toUserId
    ensures row.username == msg.username && row.text == msg.text && row.timestamp == now
    ensures row.avatarUrl.Some? <==> Truthy(msg.avatarUrl)
    ensures row.avatarUrl.Some? ==> row.avatarUrl == msg.avatarUrl
  {
    StoredMessage(msg.fromUserId, msg.toUserId, msg.username,
                  if Truthy(msg.avatarUrl) then msg.avatarUrl else None, msg.text, now)
  }

  /**
    The emissions for a stored message: to the recipient's registered socket
    when it has one, then back to the sending socket, both with the server's
    timestamp.
  */
  function Route(es: seq<Entry>, senderSocket: string, msg: WireMessage, nowIso: string): (out: seq<Emission>)
    ensures |out| >= 1 && out[|out| - 1] == ChatTo(senderSocket, msg.(timestamp := Some(nowIso)))
    ensures |out| == 2 <==> Truthy(Get(es, msg.toUserId))
    ensures |out| == 2 ==> out[0] == ChatTo(Get(es, msg.toUserId).value, msg.(timestamp := Some(nowIso)))
    ensures |out| <= 2
  {
    var stamped := msg.(timestamp := Some(nowIso));
    var toSocketId := Get(es, msg.toUserId);
    if Truthy(toSocketId) then [ChatTo(toSocketId.value, stamped), ChatTo(senderSocket, stamped)]
    else [ChatTo(senderSocket, stamped)]
  }

  /** Every routed copy is the client's message with only the timestamp replaced. */
  lemma RoutedCopiesDifferOnlyInTimestamp(es: seq<Entry>, senderSocket: string, msg: WireMessage, nowIso: string)
    ensures forall e :: e in Route(es, senderSocket, msg, nowIso) ==>
              e.ChatTo? && e.msg.timestamp == Some(nowIso) && e.msg.(timestamp := msg.timestamp) == msg
  {
  }

  class SocketServer {
    /** The module-level `onlineUsers` map. */
    var onlineUsers: seq<Entry>
    /** The chat message table. */
    var store: seq<StoredMessage>
    /** Everything emitted so far, in order. */
    var outbox: seq<Emission>

    ghost predicate Valid()
      reads this
    {
      DistinctKeys(onlineUsers)
    }

    constructor ()
      ensures Valid() && onlineUsers == [] && store == [] && outbox == []
    {
      onlineUsers := [];
      store := [];
      outbox := [];
    }

    /** `emitOnlineUsers`: the broadcast names each registered user once. */
    method EmitOnlineUsers()
      requires Valid()
      modifies this`outbox
      ensures outbox == old(outbox) + [OnlineUsers(Keys(onlineUsers))]
      ensures forall u :: u in Keys(onlineUsers) <==> exists e :: e in onlineUsers && e.userId == u
      ensures forall i, j :: 0 <= i < j < |Keys(onlineUsers)| ==> Keys(onlineUsers)[i] != Keys(onlineUsers)[j]
    {
      OnlineListIsKeySet(onlineUsers);
      var onlineIds := Keys(onlineUsers);
      outbox := outbox + [OnlineUsers(onlineIds)];
    }

    /**
      A connection. Without a user id in its handshake it is ignored and gets
      no handlers (`None`); otherwise it replaces the user's entry and the
      online list is broadcast, and its handlers serve that user id.
    */
    method OnConnection(socketId: string, auth: Option<string>) returns (handlersFor: Option<string>)
      requires Valid()
      modifies this`onlineUsers, this`outbox
      ensures Valid()
      ensures !Truthy(auth) ==> handlersFor.None? && onlineUsers == old(onlineUsers) && outbox == old(outbox)
      ensures Truthy(auth) ==> handlersFor == auth
                               && onlineUsers == Set(old(onlineUsers), auth.value, socketId)
                               && outbox == old(outbox) + [OnlineUsers(Keys(onlineUsers))]
    {
      if !Truthy(auth) {
        return None;
      }
      var userId := auth.value;
      onlineUsers := Set(onlineUsers, userId, socketId);
      EmitOnlineUsers();
      handlersFor := Some(userId);
    }

    /**
      A chat message on the socket `senderSocket`, received at `now`
      (`nowIso` in ISO form). The row is written first; only if that
      succeeds (`createOk`) is anything emitted.
    */
    method OnChatMessage(senderSocket: string, msg: WireMessage, now: int, nowIso: string, createOk: bool)
      modifies this`store, this`outbox
      ensures !createOk ==> store == old(store) && outbox == old(outbox)
      ensures createOk ==> store == old(store) + [Row(msg, now)]
                           && outbox == old(outbox) + Route(onlineUsers, senderSocket, msg, nowIso)
    {
      if !createOk {
        return;
      }
      store := store + [Row(msg, now)];
      var msgWithTimestamp := msg.(timestamp := Some(nowIso));
      var toSocketId := Get(onlineUsers, msg.toUserId);
      if Truthy(toSocketId) {
        outbox := outbox + [ChatTo(toSocketId.value, msgWithTimestamp)];
      }
      outbox := outbox + [ChatTo(senderSocket, msgWithTimestamp)];
    }

    /** A disconnect of a socket whose handlers serve `userId`. */
    method OnDisconnect(userId: string)
      requires Valid()
      modifies this`onlineUsers, this`outbox
      ensures Valid()
      ensures onlineUsers == Delete(old(onlineUsers), userId)
      ensures outbox == old(outbox) + [OnlineUsers(Keys(onlineUsers))]
    {
      onlineUsers := Delete(onlineUsers, userId);
      EmitOnlineUsers();
    }
  }
}
