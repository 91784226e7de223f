/**
  Conversation channel names: the two user ids, sorted with the default
  `sort()` and joined with a delimiter. The chat page joins with ':'
  (src/app/chat/ChatPageClient.tsx), the `/chat` page's client with '-'
  (src/app/chat/ChatClient.tsx).
*/
module Channels {
  import opened JsStrings

  /** The name of the global presence channel both presence-aware pages attach to. */
  const GlobalPresence: string := "global-presence"

  /** `[a, b].sort().join(delim)` */
  function ChannelName(a: string, b: string, delim: char): (name: string)
    ensures name == a + [delim] + b || name == b + [delim] + a
  {
    var p := SortPair(a, b);
    p.0 + [delim] + p.1
  }

  /** The chat page's channel for a user and a peer. */
  function PageChannel(userId: string, peerId: string): string {
    ChannelName(userId, peerId, ':')
  }

  /** The chat client's channel for a user and a peer. */
  function ClientChannel(userId: string, peerId: string): string {
    ChannelName(userId, peerId, '-')
  }

  /** The name is the smaller id, the delimiter, then the larger id. */
  lemma ChannelNameOrdered(a: string, b: string, delim: char)
    ensures a == b ==> ChannelName(a, b, delim) == a + [delim] + a
    ensures Less(a, b) ==> ChannelName(a, b, delim) == a + [delim] + b
    ensures Less(b, a) ==> ChannelName(a, b, delim) == b + [delim] + a
  {
    if Less(a, b) {
      LessAsymmetric(a, b);
    }
  }

  /** Both parties compute the same name. */
  lemma ChannelNameCommutes(a: string, b: string, delim: char)
    ensures ChannelName(a, b, delim) == ChannelName(b, a, delim)
  {
    SortPairSymmetric(a, b);
  }

  /** Two delimited strings whose heads hold no delimiter split the same way. */
  lemma {:induction false} SplitAtDelimiter(x: string, y: string, u: string, v: string, delim: char)
    requires delim !in x && delim !in u
    requires x + [delim] + y == u + [delim] + v
    ensures x == u && y == v
  {
    var s := x + [delim] + y;
    assert s[|x|] == delim && s[|u|] == delim;
    assert forall i :: 0 <= i < |x| ==> s[i] == x[i];
    assert forall i :: 0 <= i < |u| ==> s[i] == u[i];
    assert |x| == |u|;
    assert x == s[..|x|] && u == s[..|u|];
    assert y == s[|x| + 1..] && v == s[|u| + 1..];
  }

  /** For ids without the delimiter, distinct unordered pairs get distinct names. */
  lemma ChannelNameInjective(a: string, b: string, c: string, e: string, delim: char)
    requires delim !in a && delim !in b && delim !in c && delim !in e
    requires ChannelName(a, b, delim) == ChannelName(c, e, delim)
    ensures (a == c && b == e) || (a == e && b == c)
  {
    var p, q := SortPair(a, b), SortPair(c, e);
    SplitAtDelimiter(p.0, p.1, q.0, q.1, delim);
  }

  /** For the same pair, the page's and the client's channels never coincide. */
  lemma PageAndClientChannelsDiffer(userId: string, peerId: string)
    ensures PageChannel(userId, peerId) != ClientChannel(userId, peerId)
  {
    var p := SortPair(userId, peerId);
    assert PageChannel(userId, peerId)[|p.0|] == ':';
    assert ClientChannel(userId, peerId)[|p.0|] == '-';
  }

  /** Nor for different pairs, as long as no id contains ':'. */
  lemma PageAndClientChannelsNeverShared(a: string, b: string, c: string, e: string)
    requires ':' !in c && ':' !in e
    ensures PageChannel(a, b) != ClientChannel(c, e)
  {
    var p := SortPair(a, b);
    assert PageChannel(a, b)[|p.0|] == ':';
  }

  /** The page's conversation channel is never the global presence channel. */
  lemma PageChannelIsNotPresence(a: string, b: string)
    ensures PageChannel(a, b) != GlobalPresence
  {
    var p := SortPair(a, b);
    assert PageChannel(a, b)[|p.0|] == ':';
    assert ':' !in GlobalPresence;
  }

  /** The client's '-' channel for the ids "global" and "presence" is the presence channel. */
  lemma ClientChannelCanBePresence()
    ensures ClientChannel("global", "presence") == GlobalPresence
  {
    assert Less("global", "presence");
    ChannelNameOrdered("global", "presence", '-');
  }
}
