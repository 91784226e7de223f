/**
  The home page (src/app/page.tsx): the list of other users, each shown
  online or offline from the presence set the page keeps.
*/
module HomePage {
  import opened Wrappers
  import opened Presence

  datatype User = User(id: UserId, fullName: string, imageUrl: string)

  /** `data.filter((u) => u.id !== user.id)` when signed in, else `data` itself. */
  function OtherUsers(data: seq<User>, me: Option<UserId>): (others: seq<User>)
    ensures forall u :: u in others <==> u in data && (me.None? || u.id != me.value)
    ensures me.None? ==> others == data
    ensures |others| <= |data|
    decreases |data|
  {
    if data == [] then []
    else if me.Some? && data[0].id == me.value then OtherUsers(data[1..], me)
    else [data[0]] + OtherUsers(data[1..], me)
  }

  /** Filtering keeps the original order: it distributes over concatenation. */
  lemma {:induction false} OtherUsersKeepOrder(a: seq<User>, b: seq<User>, me: Option<UserId>)
    ensures OtherUsers(a + b, me) == OtherUsers(a, me) + OtherUsers(b, me)
    decreases |a|
  {
    if a != [] {
      assert (a + b)[0] == a[0] && (a + b)[1..] == a[1..] + b;
      OtherUsersKeepOrder(a[1..], b, me);
    } else {
      assert a + b == b;
    }
  }

  /** The online flag of each card, in list order. */
  function OnlineFlags(users: seq<User>, onlineIds: set<UserId>): (flags: seq<bool>)
    ensures |flags| == |users|
    ensures forall i :: 0 <= i < |users| ==> (flags[i] <==> users[i].id in onlineIds)
  {
    seq(|users|, i requires 0 <= i < |users| => users[i].id in onlineIds)
  }

  /**
    A card follows the presence messages of its user: it turns online when a
    connection of that user enters and offline when one leaves, provided the
    user id has no '-'.
  */
  lemma CardFollowsPresence(users: seq<User>, k: nat, onlineIds: set<UserId>, suffix: string)
    requires k < |users| && Separator !in users[k].id
    ensures OnlineFlags(users, PresenceStep(onlineIds, PresenceMessage(Enter, ClientId(users[k].id, suffix))))[k]
    ensures !OnlineFlags(users, PresenceStep(onlineIds, PresenceMessage(Leave, ClientId(users[k].id, suffix))))[k]
  {
    StripClientId(users[k].id, suffix);
  }

  class HomePage {
    /** The `users` state: the cards shown. */
    var users: seq<User>
    /** The `onlineIds` state. */
    var onlineIds: set<UserId>

    constructor ()
      ensures users == [] && onlineIds == {}
    {
      users := [];
      onlineIds := {};
    }

    /** The presence subscriber: a fresh copy of the set with the stripped id added or deleted. */
    method OnPresence(msg: PresenceMessage)
      modifies this`onlineIds
      ensures onlineIds == PresenceStep(old(onlineIds), msg)
    {
      var newSet := onlineIds;
      var rawUserId := StripSuffix(msg.clientId);
      if msg.action == Enter || msg.action == Update {
        newSet := newSet + {rawUserId};
      } else if msg.action == Leave || msg.action == Absent {
        newSet := newSet - {rawUserId};
      }
      onlineIds := newSet;
    }

    /** The user fetch: once auth has loaded, show every fetched user but the signed-in one. */
    method LoadUsers(isLoaded: bool, data: seq<User>, me: Option<UserId>)
      modifies this`users
      ensures users == if isLoaded then OtherUsers(data, me) else old(users)
    {
      if !isLoaded {
        return;
      }
      if me.Some? {
        users := OtherUsers(data, me);
      } else {
        users := data;
      }
    }

    /** What the grid shows: each user with its online flag. */
    function Cards(): (flags: seq<bool>)
      reads this
      ensures |flags| == |users|
      ensures forall i :: 0 <= i < |users| ==> (flags[i] <==> users[i].id in onlineIds)
    {
      OnlineFlags(users, onlineIds)
    }
  }
}
