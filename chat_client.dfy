/**
  The `/chat` page's client (src/app/chat/ChatClient.tsx): it reads the peer
  from the `peerId` query parameter, opens the '-' channel once the user is
  known, and shows the chat box only with both a channel and a peer.
*/
module ChatClient {
  import opened Wrappers
  import opened JsStrings
  import opened Channels

  /** The query string as its key/value pairs, in order. */
  type SearchParams = seq<(string, string)>

  /** `params.get(key)`: the value of the first pair with that key, or null. */
  function GetParam(params: SearchParams, key: string): (value: Option<string>)
    ensures value.None? <==> forall i :: 0 <= i < |params| ==> params[i].0 != key
    ensures value.Some? ==> exists i :: 0 <= i < |params| && params[i] == (key, value.value)
                                        && forall j :: 0 <= j < i ==> params[j].0 != key
    decreases |params|
  {
    if params == [] then None
    else if params[0].0 == key then Some(params[0].1)
    else
      var rest := GetParam(params[1..], key);
      assert forall i :: 1 <= i < |params| ==> params[i] == params[1..][i - 1];
      rest
  }

  /** `searchParams?.get('peerId') ?? undefined` */
  function PeerIdParam(searchParams: Option<SearchParams>): (peerId: Option<string>)
    ensures peerId.Some? ==> searchParams.Some? && exists i :: 0 <= i < |searchParams.value|
                                                               && searchParams.value[i] == ("peerId", peerId.value)
    ensures searchParams.None? ==> peerId.None?
    ensures searchParams.Some? ==> peerId == GetParam(searchParams.value, "peerId")
  {
    if searchParams.None? then None else GetParam(searchParams.value, "peerId")
  }

  /** The channel effect: it opens a channel only for a loaded user and a truthy peer. */
  function ChannelAfterEffect(ablyChannel: Option<string>, isLoaded: bool, user: Option<string>,
                              peerId: Option<string>): (channel: Option<string>)
    ensures isLoaded && user.Some? && Truthy(peerId) ==> channel == Some(ClientChannel(user.value, peerId.value))
    ensures !(isLoaded && user.Some? && Truthy(peerId)) ==> channel == ablyChannel
  {
    if isLoaded && user.Some? && peerId.Some? && peerId.value != "" then
      Some(ClientChannel(user.value, peerId.value))
    else
      ablyChannel
  }

  /** The render guard `ablyChannel && peerId`. */
  predicate ShowsChatBox(ablyChannel: Option<string>, peerId: Option<string>): (r: bool)
    ensures r <==> ablyChannel != None && peerId != None && peerId != Some("")
  {
    ablyChannel.Some? && Truthy(peerId)
  }

  /**
    Starting with no channel, the chat box appears exactly when the effect's
    guard held, and then on the channel both parties share.
  */
  lemma ChatBoxNeedsUserAndPeer(isLoaded: bool, user: Option<string>, peerId: Option<string>)
    ensures var channel := ChannelAfterEffect(None, isLoaded, user, peerId);
            && (ShowsChatBox(channel, peerId) <==> isLoaded && user.Some? && Truthy(peerId))
            && (ShowsChatBox(channel, peerId) ==> channel.value == ClientChannel(peerId.value, user.value))
  {
    if user.Some? && peerId.Some? {
      ChannelNameCommutes(user.value, peerId.value, '-');
    }
  }

  /** Without a `peerId` query parameter there is no peer, hence no channel and no chat box. */
  lemma NoPeerParamNoChatBox(params: SearchParams, isLoaded: bool, user: Option<string>)
    requires forall i :: 0 <= i < |params| ==> params[i].0 != "peerId"
    ensures PeerIdParam(Some(params)).None?
    ensures !ShowsChatBox(ChannelAfterEffect(None, isLoaded, user, PeerIdParam(Some(params))),
                          PeerIdParam(Some(params)))
  {
  }
}
