/**
  Presence as the pages see it: a set of online user ids, kept up to date
  from presence messages on the global presence channel. A connection
  announces itself under a client id made of the user id, '-' and a random
  suffix; a page recovers the user id with `clientId.split('-')[0]`.
*/
module Presence {
  import opened JsStrings

  type UserId = string

  const Separator: char := '-'

  /** The actions a presence message can carry. */
  datatype PresenceAction = Absent | Present | Enter | Leave | Update

  datatype PresenceMessage = PresenceMessage(action: PresenceAction, clientId: string)

  /** A character of `Math.random().toString(36)` after the leading "0.". */
  predicate IsBase36Digit(c: char) {
    '0' <= c <= '9' || 'a' <= c <= 'z'
  }

  /** What `.slice(2, 8)` of that string can be: up to six base-36 digits. */
  predicate IsRandomSuffix(suffix: string) {
    |suffix| <= 6 && forall i :: 0 <= i < |suffix| ==> IsBase36Digit(suffix[i])
  }

  /** `${userId}-${suffix}`: the client id one connection of `userId` uses. */
  function ClientId(userId: UserId, suffix: string): (clientId: string)
    ensures userId + [Separator] <= clientId
    ensures clientId[|userId| + 1..] == suffix
  {
    userId + [Separator] + suffix
  }

  /** `clientId.split('-')[0]`: the user id a page reads back from a client id. */
  function StripSuffix(clientId: string): (userId: UserId)
    ensures userId <= clientId && Separator !in userId
    ensures |userId| < |clientId| ==> clientId[|userId|] == Separator
  {
    SplitHead(clientId, Separator)
  }

  /** Stripping a client id gives back its user id exactly when that id has no '-'. */
  lemma StripClientId(userId: UserId, suffix: string)
    ensures StripSuffix(ClientId(userId, suffix)) == userId <==> Separator !in userId
  {
    SplitHeadOfJoined(userId, Separator, suffix);
  }

  /** The random suffix never matters to the stripped id. */
  lemma StripIgnoresSuffix(userId: UserId, suffix1: string, suffix2: string)
    ensures StripSuffix(ClientId(userId, suffix1)) == StripSuffix(ClientId(userId, suffix2))
  {
    var s1, s2 := ClientId(userId, suffix1), ClientId(userId, suffix2);
    var r1, r2 := StripSuffix(s1), StripSuffix(s2);
    assert forall i :: 0 <= i <= |userId| ==> s1[i] == s2[i];
    assert forall i :: 0 <= i < |r1| ==> r1[i] == s1[i];
    assert forall i :: 0 <= i < |r2| ==> r2[i] == s2[i];
    assert s1[|userId|] == Separator;
    assert |r1| <= |userId| && |r2| <= |userId|;
  }

  /** Actions that mark a user online. */
  predicate Joins(action: PresenceAction) {
    action == Enter || action == Update
  }

  /** Actions that mark a user offline. */
  predicate Departs(action: PresenceAction) {
    action == Leave || action == Absent
  }

  /** The set the presence subscriber builds from the previous one. */
  function PresenceStep(prev: set<UserId>, msg: PresenceMessage): (next: set<UserId>)
    ensures Joins(msg.action) ==> StripSuffix(msg.clientId) in next
    ensures Departs(msg.action) ==> StripSuffix(msg.clientId) !in next
    ensures !Joins(msg.action) && !Departs(msg.action) ==> next == prev
    ensures forall u :: u != StripSuffix(msg.clientId) ==> (u in next <==> u in prev)
  {
    var userId := StripSuffix(msg.clientId);
    if Joins(msg.action) then prev + {userId}
    else if Departs(msg.action) then prev - {userId}
    else prev
  }

  /**
    One tab leaving takes the user offline even while another of its tabs
    is still present: the state is a set of user ids, not a count of
    connections.
  */
  lemma OneLeaveTakesUserOffline(prev: set<UserId>, userId: UserId, staying: string, leaving: string)
    requires Separator !in userId
    ensures var both := PresenceStep(PresenceStep(prev, PresenceMessage(Enter, ClientId(userId, staying))),
                                     PresenceMessage(Enter, ClientId(userId, leaving)));
            userId in both && userId !in PresenceStep(both, PresenceMessage(Leave, ClientId(userId, leaving)))
  {
    StripClientId(userId, staying);
    StripClientId(userId, leaving);
  }

  /**
    A user id with a '-' never shows as online: the page records only the
    part before the first '-'.
  */
  lemma DashedIdNeverOnline(prev: set<UserId>, userId: UserId, suffix: string)
    requires Separator in userId
    requires userId !in prev
    ensures userId !in PresenceStep(prev, PresenceMessage(Enter, ClientId(userId, suffix)))
  {
    StripClientId(userId, suffix);
  }

  /**
    A random suffix holds no '-', so the client id of a '-'-free user id has
    exactly one '-', the one the template puts after the user id.
  */
  lemma ClientIdHasOneSeparator(userId: UserId, suffix: string)
    requires Separator !in userId && IsRandomSuffix(suffix)
    ensures forall i :: 0 <= i < |ClientId(userId, suffix)| ==>
              (ClientId(userId, suffix)[i] == Separator <==> i == |userId|)
  {
    var c := ClientId(userId, suffix);
    forall i | 0 <= i < |c|
      ensures c[i] == Separator <==> i == |userId|
    {
      if i < |userId| {
        assert c[i] == userId[i];
      } else if i > |userId| {
        assert c[i] == suffix[i - |userId| - 1];
        assert IsBase36Digit(suffix[i - |userId| - 1]);
      }
    }
  }

  /** The stripped ids of the members the presence channel reports. */
  method CurrentOnline(members: seq<PresenceMessage>) returns (current: set<UserId>)
    ensures current == set i | 0 <= i < |members| :: StripSuffix(members[i].clientId)
  {
    current := {};
    for i := 0 to |members|
      invariant current == set j | 0 <= j < i :: StripSuffix(members[j].clientId)
    {
      current := current + {StripSuffix(members[i].clientId)};
      assert (set j | 0 <= j < i + 1 :: StripSuffix(members[j].clientId))
          == (set j | 0 <= j < i :: StripSuffix(members[j].clientId)) + {StripSuffix(members[i].clientId)};
    }
  }
}
