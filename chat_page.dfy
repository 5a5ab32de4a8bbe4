/**
 * The logic of ChatPage.jsx: which channel a one-to-one chat opens, when a
 * new message raises a desktop notification, and the message that
 * announces a video call.
 */
module ChatPage {
  import opened Wrappers
  import opened Text
  import opened Channels
  import HomePage

  /** The arguments of `client.channel("messaging", channelId, { members })`. */
  datatype ChannelSetup = ChannelSetup(channelType: string, id: string, members: seq<string>)

  /** The channel opened when `self` chats with `target`. */
  function OpenChannel(self: string, target: string): (c: ChannelSetup)
    ensures c.channelType == "messaging"
    ensures c.members == [self, target]
    ensures c.id == ChannelId(target, self)
    ensures "messaging:" + c.id == HomePage.ReadChannelId(self, target)
  {
    ChannelIdSymmetric(self, target);
    ChannelSetup("messaging", ChannelId(self, target), [self, target])
  }

  /**
   * Whoever starts the chat, both users open the same channel with the same
   * two members (listed in a different order).
   */
  lemma BothPartiesOpenOneChannel(a: string, b: string)
    ensures OpenChannel(a, b).id == OpenChannel(b, a).id
    ensures multiset(OpenChannel(a, b).members) == multiset(OpenChannel(b, a).members)
  {
  }

  /** A new message raises a notification when someone else sent it and the page is hidden. */
  predicate ShouldNotify(self: string, senderId: string, documentHidden: bool)
  {
    senderId != self && documentHidden
  }

  /**
   * The chat page and the home page's unread ledger apply the same sender
   * test: a message that notifies is one the ledger counts, and a message
   * from self neither notifies nor counts, hidden page or not.
   */
  lemma NotifiedMessagesAreCounted(ledger: HomePage.Ledger, self: string, senderId: string, documentHidden: bool)
    ensures ShouldNotify(self, senderId, documentHidden) ==>
      HomePage.Count(HomePage.OnMessageNew(ledger, self, senderId), senderId) == HomePage.Count(ledger, senderId) + 1
    ensures senderId == self ==>
      !ShouldNotify(self, senderId, documentHidden) && HomePage.OnMessageNew(ledger, self, senderId) == ledger
    ensures !documentHidden ==> !ShouldNotify(self, senderId, documentHidden)
  {
  }

  const CallMessagePrefix: string := "I've started a video call. Join me here: "

  /** `${window.location.origin}/call/${channel.id}`. */
  function CallUrl(origin: string, channelId: string): string
  {
    origin + "/call/" + channelId
  }

  /**
   * `handleVideoCall`: with an open channel, the text of the message sent to
   * it; with no channel, nothing is sent.
   */
  function HandleVideoCall(channelId: Option<string>, origin: string): (sent: Option<string>)
    ensures channelId.None? <==> sent.None?
    ensures channelId.Some? ==> StartsWith(sent.value, CallMessagePrefix)
    ensures channelId.Some? ==> sent.value[|CallMessagePrefix|..] == CallUrl(origin, channelId.value)
  {
    match channelId
    case None => None
    case Some(id) => Some(CallMessagePrefix + CallUrl(origin, id))
  }

  /** The call id a reader of a call message on this origin can recover from it. */
  function CallIdFromMessage(text: string, origin: string): Option<string>
  {
    var lead := CallMessagePrefix + origin + "/call/";
    if StartsWith(text, lead) then Some(text[|lead|..]) else None
  }

  /** The announced link leads back to the very channel the call was started from. */
  lemma CallLinkRoundTrip(channelId: string, origin: string)
    ensures HandleVideoCall(Some(channelId), origin).Some?
    ensures CallIdFromMessage(HandleVideoCall(Some(channelId), origin).value, origin) == Some(channelId)
  {
    var lead := CallMessagePrefix + origin + "/call/";
    var text := HandleVideoCall(Some(channelId), origin).value;
    assert text == lead + channelId;
    assert text[..|lead|] == lead;
    assert text[|lead|..] == channelId;
  }
}
