// aya-backend/server/chat_service/discord/emitter.go: the Discord emitter.
// `resource2Subscriber` counts the sessions per "guild/channel" key, and the
// register holds the keys with at least one subscriber; the gateway handlers
// forward an event only when the register has its guild and channel. The
// author, parts and attachments of an event are the message parser's output
// (that parser is not part of this model) and arrive with the event.
// aya-backend/server/chat_service/discord/register.go is not part of this
// model; the emitter calls `register`, `deregister` and `check` on it, the
// methods of aya-backend/server-ws/chat_service/discord/register.go, whose
// model (module DiscordRegisterWs) stands in for it.

module DiscordEmitter {
  import opened Common
  import opened ChatMessage
  import opened SessionIndex
  import opened DiscordHub
  import DiscordRegisterWs

  /** A gateway event as the three handlers read it. */
  datatype GatewayEvent =
    | MessageCreate(guildId: string, channelId: string, id: string, timestamp: int,
                    author: Author, parts: seq<MessagePart>, attachments: seq<string>)
    | MessageDelete(guildId: string, channelId: string, id: string, timestamp: int)
    | MessageEdit(guildId: string, channelId: string, id: string, timestamp: int,
                  author: Author, parts: seq<MessagePart>, attachments: seq<string>)

  /** The envelope a handler sends: New, Delete or Edit by event kind, from Discord,
      routed by the event's own guild and channel; a deletion carries only the id. */
  function Envelope(ev: GatewayEvent): (u: MessageUpdate)
    ensures u.update == (match ev case MessageCreate(_, _, _, _, _, _, _) => New
                                  case MessageDelete(_, _, _, _) => Delete
                                  case MessageEdit(_, _, _, _, _, _, _) => Edit)
    ensures u.message.source == Discord && u.message.id == ev.id && u.updateTime == ev.timestamp
    ensures u.extraFields == DiscordInfo(ev.guildId, ev.channelId)
    ensures ev.MessageDelete? ==> u.message.author == EmptyAuthor && u.message.messageParts == [] &&
                                  u.message.attachments == []
    ensures !ev.MessageDelete? ==> u.message.author == ev.author && u.message.messageParts == ev.parts &&
                                   u.message.attachments == ev.attachments
  {
    match ev
    case MessageCreate(g, c, id, t, author, parts, attachments) =>
      MessageUpdate(t, New, Message(Discord, id, author, parts, attachments), DiscordInfo(g, c))
    case MessageDelete(g, c, id, t) =>
      MessageUpdate(t, Delete, Message(Discord, id, EmptyAuthor, [], []), DiscordInfo(g, c))
    case MessageEdit(g, c, id, t, author, parts, attachments) =>
      MessageUpdate(t, Edit, Message(Discord, id, author, parts, attachments), DiscordInfo(g, c))
  }

  /** Where the emitter files a descriptor: Discord pairs by "guild/channel", every other kind nowhere. */
  function ChannelKey(info: Info): (k: Option<string>)
    ensures k.Some? <==> info.DiscordInfo?
  {
    if info.DiscordInfo? then Some(KeyOf(info)) else None
  }

  class DiscordEmitter {
    var resource2Subscriber: Index
    const register: DiscordRegisterWs.DiscordRegister
    var updates: seq<MessageUpdate>

    /** Every key has a subscriber, and the register holds exactly the subscribed keys. */
    ghost predicate Valid()
      reads this, register
    {
      NoEmpty(resource2Subscriber) && register.guildChannelMap == resource2Subscriber.Keys
    }

    /** `NewEmitter`: an empty subscriber map and an empty register. */
    constructor ()
      ensures Valid() && fresh(register)
      ensures resource2Subscriber == map[] && register.guildChannelMap == {} && updates == []
    {
      resource2Subscriber := map[];
      register := new DiscordRegisterWs.DiscordRegister();
      updates := [];
    }

    /** `Register`: ignores other kinds; files the subscriber under "guild/channel" and
        registers the pair exactly when the key had no subscriber. */
    method Register(subscriber: string, resourceInfo: Info)
      requires Valid()
      modifies this, register
      ensures Valid()
      ensures updates == old(updates)
      ensures resource2Subscriber == Step(old(resource2Subscriber), EmitterCall.Register(subscriber, resourceInfo), ChannelKey)
    {
      if !resourceInfo.DiscordInfo? {
        return;
      }
      var guildId, channelId := resourceInfo.discordGuildId, resourceInfo.discordChannelId;
      var guildChannel := Key(guildId, channelId);
      if guildChannel !in resource2Subscriber {
        assert Lookup(resource2Subscriber, guildChannel) + {subscriber} == {subscriber};
        resource2Subscriber := resource2Subscriber[guildChannel := {subscriber}];
        register.Register(guildId, channelId);
      } else {
        resource2Subscriber := resource2Subscriber[guildChannel := resource2Subscriber[guildChannel] + {subscriber}];
      }
    }

    /** `Deregister`: ignores other kinds and unknown keys; removes the subscriber, and
        deregisters the pair exactly when its last subscriber leaves. */
    method Deregister(subscriber: string, resourceInfo: Info)
      requires Valid()
      modifies this, register
      ensures Valid()
      ensures updates == old(updates)
      ensures resource2Subscriber == Step(old(resource2Subscriber), EmitterCall.Deregister(subscriber, resourceInfo), ChannelKey)
    {
      if !resourceInfo.DiscordInfo? {
        return;
      }
      var guildId, channelId := resourceInfo.discordGuildId, resourceInfo.discordChannelId;
      var guildChannel := Key(guildId, channelId);
      if guildChannel !in resource2Subscriber {
        return;
      }
      var rest := resource2Subscriber[guildChannel] - {subscriber};
      if rest == {} {
        resource2Subscriber := resource2Subscriber - {guildChannel};
        register.Deregister(guildId, channelId);
      } else {
        resource2Subscriber := resource2Subscriber[guildChannel := rest];
      }
    }

    /** The MessageCreate, MessageDelete and MessageUpdate handlers: an event is sent on
        exactly when some session subscribes to its guild and channel. */
    method OnEvent(ev: GatewayEvent)
      requires Valid()
      modifies this
      ensures Valid()
      ensures resource2Subscriber == old(resource2Subscriber)
      ensures updates == old(updates) +
                (if Key(ev.guildId, ev.channelId) in resource2Subscriber then [Envelope(ev)] else [])
    {
      if register.Check(ev.guildId, ev.channelId) {
        updates := updates + [Envelope(ev)];
      }
    }
  }
}
