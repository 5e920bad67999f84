// aya-frontend-v2/src/app/interfaces/message.ts: the chat message as the
// overlay receives it, and the entry the chat stream displays. An optional
// boolean flag that is `undefined` reads as `false` everywhere it is tested,
// so it is a plain `bool` here.

module FrontendMessage {
  import opened Common

  datatype Author = Author(isBot: bool, isAdmin: bool, username: string, color: string)

  datatype Format = Format(color: string)

  datatype Emoji = Emoji(alt: string, id: string)

  datatype MessagePart = MessagePart(format: Option<Format>, emoji: Option<Emoji>, content: string)

  /** `source` is one of "discord", "youtube", "twitch", "test_source" by its type,
      but arrives unchecked from the websocket. */
  datatype Message = Message(source: string, id: string, author: Author,
                             attachments: seq<string>, messageParts: seq<MessagePart>)

  /** `DisplayMessage`. `key` stands for the object's identity: the timers of the chat
      stream hold a reference to the entry they were started for. */
  datatype DisplayMessage = DisplayMessage(key: nat, message: Message,
                                           delete: bool, edit: bool, remove: bool, init: bool)
}
