/**
  The chat page (src/app/chat/ChatPageClient.tsx): it connects under a
  suffixed client id, opens the ':' conversation channel with the peer, and
  keeps the set of online user ids from the global presence channel.
*/
module ChatPage {
  import opened Wrappers
  import opened Presence
  import opened Channels

  /**
    The header's online flag follows the peer's own presence: an enter of a
    '-'-free peer id turns it on, a leave turns it off, and a message about
    anyone else leaves it as it was.
  */
  lemma PeerFollowsPresence(prev: set<UserId>, peerId: UserId, suffix: string, other: PresenceMessage)
    requires Separator !in peerId
    ensures peerId in PresenceStep(prev, PresenceMessage(Enter, ClientId(peerId, suffix)))
    ensures peerId !in PresenceStep(prev, PresenceMessage(Leave, ClientId(peerId, suffix)))
    ensures StripSuffix(other.clientId) != peerId ==> (peerId in PresenceStep(prev, other) <==> peerId in prev)
  {
    StripClientId(peerId, suffix);
  }

  class ChatPageClient {
    const peerId: UserId
    /** The `onlineUserIds` state. */
    var onlineUserIds: set<UserId>
    /** The name of the channel held in the `ablyChannel` state, if any. */
    var channel: Option<string>

    constructor (peerId: UserId)
      ensures this.peerId == peerId && onlineUserIds == {} && channel == None
    {
      this.peerId := peerId;
      onlineUserIds := {};
      channel := None;
    }

    /**
      The connection effect: with a loaded user and an API key it picks the
      client id and opens the conversation channel; otherwise it does nothing.
    */
    method Connect(isLoaded: bool, user: Option<UserId>, apiKey: string, suffix: string)
      returns (clientId: Option<string>)
      modifies this`channel
      ensures clientId.Some? <==> isLoaded && user.Some? && apiKey != ""
      ensures clientId.Some? ==> clientId.value == ClientId(user.value, suffix)
                                 && channel == Some(PageChannel(user.value, peerId))
      ensures clientId.None? ==> channel == old(channel)
    {
      if !isLoaded || user.None? || apiKey == "" {
        return None;
      }
      clientId := Some(ClientId(user.value, suffix));
      channel := Some(PageChannel(user.value, peerId));
    }

    /** The presence subscriber: copy the set, then add or delete the stripped id. */
    method OnPresence(msg: PresenceMessage)
      modifies this`onlineUserIds
      ensures onlineUserIds == PresenceStep(old(onlineUserIds), msg)
    {
      var updated := onlineUserIds;
      var onlineUserId := StripSuffix(msg.clientId);
      if msg.action == Enter || msg.action == Update {
        updated := updated + {onlineUserId};
      } else if msg.action == Leave || msg.action == Absent {
        updated := updated - {onlineUserId};
      }
      onlineUserIds := updated;
    }

    /** The initial presence fetch replaces the set with the members' stripped ids. */
    method LoadMembers(members: seq<PresenceMessage>)
      modifies this`onlineUserIds
      ensures onlineUserIds == set i | 0 <= i < |members| :: StripSuffix(members[i].clientId)
    {
      var currentOnline := CurrentOnline(members);
      onlineUserIds := currentOnline;
    }

    /** The effect's cleanup: no channel and nobody online. */
    method Cleanup()
      modifies this`onlineUserIds, this`channel
      ensures onlineUserIds == {} && channel == None
    {
      channel := None;
      onlineUserIds := {};
    }

    /** `peerIsOnline`: the header shows the peer online exactly when its id is in the set. */
    function PeerIsOnline(): (online: bool)
      reads this
      ensures online <==> peerId in onlineUserIds
    {
      peerId in onlineUserIds
    }
  }
}
