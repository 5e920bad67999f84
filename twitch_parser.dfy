// The Twitch message parser: one IRC private message becomes one New envelope
// from Twitch, routed by the channel it was said in. The two generations
// (aya-backend/server/chat_service/twitch/parser.go and
// aya-backend/server-ws/chat_service/twitch/parser.go) build the same
// envelope; the older one also prints the message to the console.

module TwitchParser {
  import opened Common
  import opened ChatMessage

  /** The fields of go-twitch-irc's PrivateMessage the parser reads. */
  datatype PrivateMessage = PrivateMessage(time: int, id: string, userName: string, text: string, channel: string)

  /** `ParseMessage`: a New update from Twitch whose only part is the message text,
      whose author carries only the user name, and whose routing key is the channel. */
  function ParseMessage(msg: PrivateMessage): (u: MessageUpdate)
    ensures u.update == New && u.message.source == Twitch
    ensures |u.message.messageParts| == 1 && u.message.attachments == []
    ensures u.extraFields.TwitchInfo?
  {
    MessageUpdate(
      msg.time, New,
      Message(Twitch, msg.id, EmptyAuthor.(username := msg.userName), [EmptyPart.(content := msg.text)], []),
      TwitchInfo(msg.channel))
  }

  /** Reads the IRC message back out of an envelope of the parser's shape. */
  function Origin(u: MessageUpdate): Option<PrivateMessage>
  {
    if u.update == New && u.message.source == Twitch && u.extraFields.TwitchInfo? &&
       u.message.author == EmptyAuthor.(username := u.message.author.username) &&
       |u.message.messageParts| == 1 &&
       u.message.messageParts == [EmptyPart.(content := u.message.messageParts[0].content)] &&
       u.message.attachments == []
    then Some(PrivateMessage(u.updateTime, u.message.id, u.message.author.username,
                             u.message.messageParts[0].content, u.extraFields.twitchChannelName))
    else None
  }

  /** Nothing the parser reads is lost: time, id, user name, text and channel all come back. */
  lemma ParseRoundTrip(msg: PrivateMessage)
    ensures Origin(ParseMessage(msg)) == Some(msg)
  {
  }

  /** Every envelope of the parser's shape is the parse of exactly the message read back from it. */
  lemma OriginIsParse(u: MessageUpdate)
    requires Origin(u).Some?
    ensures ParseMessage(Origin(u).value) == u
  {
  }

  /** The channel reaches the hubs as the routing key but never the browser. */
  lemma ChannelNotOnWire(msg: PrivateMessage, channel: string)
    ensures Wire(ParseMessage(msg.(channel := channel))) == Wire(ParseMessage(msg))
    ensures ParseMessage(msg.(channel := channel)).extraFields == TwitchInfo(channel)
  {
    RoutingKeyNotSerialised(ParseMessage(msg), TwitchInfo(channel));
  }
}
