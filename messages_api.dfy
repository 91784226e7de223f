/**
  The history endpoint (src/pages/api/messages.ts): the messages between
  two users, in either direction, oldest first.
*/
module MessagesApi {
  import opened Wrappers
  import opened JsStrings
  import opened Store

  /** A query-string value: absent, given once, or given several times. */
  datatype QueryValue = Missing | Single(value: string) | Repeated(values: seq<string>)

  datatype MessagesResponse =
    | BadRequest                               // 400
    | Found(messages: seq<StoredMessage>)      // 200
    | ServerError                              // 500

  /** The guard's test of one parameter: present, a string, and not empty. */
  predicate IsIdParam(q: QueryValue): (r: bool)
    ensures r <==> q.Single? && Truthy(Some(q.value))
  {
    q.Single? && q.value != ""
  }

  /** The `where` clause: from `a` to `b`, or from `b` to `a`. */
  predicate Between(m: StoredMessage, a: string, b: string): (r: bool)
    ensures r <==> {m.fromUserId, m.toUserId} == {a, b}
  {
    (m.fromUserId == a && m.toUserId == b) || (m.fromUserId == b && m.toUserId == a)
  }

  /** The stored messages that satisfy the `where` clause, in store order. */
  function Conversation(store: seq<StoredMessage>, a: string, b: string): (r: seq<StoredMessage>)
    ensures forall m :: m in r ==> Between(m, a, b)
    ensures forall m :: multiset(r)[m] == if Between(m, a, b) then multiset(store)[m] else 0
    decreases |store|
  {
    if store == [] then []
    else
      assert store == [store[0]] + store[1..];
      if Between(store[0], a, b) then [store[0]] + Conversation(store[1..], a, b)
      else Conversation(store[1..], a, b)
  }

  /** The conversation does not depend on which of the two users asks. */
  lemma {:induction false} ConversationSymmetric(store: seq<StoredMessage>, a: string, b: string)
    ensures Conversation(store, a, b) == Conversation(store, b, a)
    decreases |store|
  {
    if store != [] {
      ConversationSymmetric(store[1..], a, b);
    }
  }

  predicate SortedByTimestamp(s: seq<StoredMessage>) {
    forall i, j :: 0 <= i < j < |s| ==> s[i].timestamp <= s[j].timestamp
  }

  /** `m` put into a list already in timestamp order, after every message not later than it. */
  function Insert(m: StoredMessage, s: seq<StoredMessage>): (r: seq<StoredMessage>)
    requires SortedByTimestamp(s)
    ensures SortedByTimestamp(r)
    ensures multiset(r) == multiset(s) + multiset{m}
    ensures |r| == |s| + 1 && (r[0] == m || (s != [] && r[0] == s[0]))
    decreases |s|
  {
    if s == [] then [m]
    else if m.timestamp < s[0].timestamp then [m] + s
    else
      var rest := Insert(m, s[1..]);
      assert s == [s[0]] + s[1..];
      assert s[0].timestamp <= rest[0].timestamp;
      assert forall j :: 0 <= j < |rest| ==> s[0].timestamp <= rest[j].timestamp;
      [s[0]] + rest
  }

  /** `orderBy: { timestamp: 'asc' }`: the same messages, oldest first. */
  function SortByTimestamp(s: seq<StoredMessage>): (r: seq<StoredMessage>)
    ensures SortedByTimestamp(r)
    ensures multiset(r) == multiset(s)
    decreases |s|
  {
    if s == [] then []
    else
      assert s == [s[0]] + s[1..];
      Insert(s[0], SortByTimestamp(s[1..]))
  }

  /** The handler: the guard, then the query. `queryOk` is false when the store fails. */
  function GetMessages(userId: QueryValue, peerId: QueryValue, store: seq<StoredMessage>, queryOk: bool)
    : (r: MessagesResponse)
    ensures r == BadRequest <==> !IsIdParam(userId) || !IsIdParam(peerId)
    ensures r == ServerError <==> IsIdParam(userId) && IsIdParam(peerId) && !queryOk
    ensures r.Found? ==> SortedByTimestamp(r.messages)
    ensures r.Found? ==> forall m :: m in r.messages ==> Between(m, userId.value, peerId.value)
    ensures r.Found? ==> forall m :: Between(m, userId.value, peerId.value) ==>
                                      multiset(r.messages)[m] == multiset(store)[m]
  {
    if !IsIdParam(userId) || !IsIdParam(peerId) then BadRequest
    else if !queryOk then ServerError
    else
      var found := SortByTimestamp(Conversation(store, userId.value, peerId.value));
      assert forall m :: m in found ==> m in multiset(Conversation(store, userId.value, peerId.value));
      Found(found)
  }

  /** Asking as either party gives the same answer. */
  lemma GetMessagesSymmetric(userId: QueryValue, peerId: QueryValue, store: seq<StoredMessage>, queryOk: bool)
    ensures GetMessages(userId, peerId, store, queryOk) == GetMessages(peerId, userId, store, queryOk)
  {
    if IsIdParam(userId) && IsIdParam(peerId) {
      ConversationSymmetric(store, userId.value, peerId.value);
    }
  }
}
